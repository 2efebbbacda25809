/** Why replaying needs compatible sequences: an accepted profile on which one key is processed for ever. */
module Divergence {
  import opened Options
  import opened Profiles
  import opened Automata
  import opened StateMachine
  import opened Outputs
  import opened MapperModel
  import opened Replaying
  import opened Profiling
  import opened MapperRuns
  import opened Bounded
  import Termination

  function Key(k: KeyCode): InputEvent {
    KeyEvent(k, KeyEventType.Press)
  }

  function Triggers(keys: seq<KeyCode>): seq<AdvancedTrigger> {
    seq(|keys|, i requires 0 <= i < |keys| => KeyPress(keys[i]))
  }

  function KeyNodes(keys: seq<KeyCode>): seq<Node> {
    seq(|keys|, i requires 0 <= i < |keys| => Node(Key(keys[i]), None))
  }

  lemma {:induction false} TriggersParsed(keys: seq<KeyCode>)
    ensures NormalForm(Triggers(keys)) && Nodes(Triggers(keys)) == KeyNodes(keys)
  {
    if keys != [] {
      TriggersParsed(keys[1..]);
      assert Triggers(keys)[1..] == Triggers(keys[1..]);
      assert KeyNodes(keys) == [Node(Key(keys[0]), None)] + KeyNodes(keys[1..]);
    }
  }

  // ---------- a layer that never comes to rest ----------

  function Rule(keys: seq<KeyCode>): Sequence {
    Sequence(SequenceBehavior.Default, KeyNodes(keys), [])
  }

  function Trigger(keys: seq<KeyCode>): SequenceTrigger {
    SequenceTrigger(SequenceBehavior.Default, Triggers(keys), [])
  }

  /** With keys a to d and z: the words a b and d c are complete, a b c z and d c b z go on from them. */
  const LOOP_RULES := [Rule([0, 1]), Rule([0, 1, 2, 4]), Rule([3, 2]), Rule([3, 2, 1, 4])]
  const LOOP_LAYER := Layer("loop", [], [Trigger([0, 1]), Trigger([0, 1, 2, 4]), Trigger([3, 2]), Trigger([3, 2, 1, 4])])
  const LOOP_PROFILE := Profile("loop", [LOOP_LAYER], 0)

  function To(state: nat): Transition {
    Transition(None, [], state)
  }

  /** The state in which `keys` are held and only `last` leads on. */
  function LoopState(keys: seq<KeyCode>, last: KeyCode): State {
    State(map[Key(last) := To(HOME_STATE_IDX)], Fallback(SequenceBehavior.Default, Events(KeyNodes(keys))), None)
  }

  const LOOP_HOME := State(map[Key(0) := To(1), Key(2) := To(2), Key(3) := To(3), Key(1) := To(4)], HOME_STATE.fallback, None)
  const LOOP_STATES := [LOOP_HOME, LoopState([0], 1), LoopState([0, 1, 2], 4), LoopState([3], 2), LoopState([3, 2, 1], 4)]
  const LOOP := Compiled([LOOP_STATES], [map[]])

  lemma LoopParsed()
    ensures NormalLayer(LOOP_LAYER) && ParseLayer(LOOP_LAYER) == LOOP_RULES
  {
    TriggersParsed([0, 1]);
    TriggersParsed([0, 1, 2, 4]);
    TriggersParsed([3, 2]);
    TriggersParsed([3, 2, 1, 4]);
  }

  const LOOP_METADATA := StateMetadata(None, SequenceBehavior.Default)

  function WithEdge(state: State, key: KeyCode, target: nat): State {
    state.(edges := state.edges[Key(key) := To(target)])
  }

  /** The build with one state more, entered from HOME by `key`. */
  function Added(b: Build, key: KeyCode, state: State): Build
    requires |b.states| > 0
  {
    Build(b.states[HOME_STATE_IDX := WithEdge(b.states[HOME_STATE_IDX], key, |b.states|)] + [state], b.metadata + [LOOP_METADATA])
  }

  /** The build with a state for the key's word, which leads nowhere yet. */
  function Opened(b: Build, s: Sequence, k: nat, key: KeyCode): Build
    requires |b.states| > 0 && k < |s.nodes|
  {
    SetEdge(Push(b, FreshState(s, k), LOOP_METADATA), HOME_STATE_IDX, Key(key), To(|b.states|))
  }

  lemma FirstTrigger(b: Build, s: Sequence, keys: seq<KeyCode>, k: nat)
    requires ValidBuild(b) && s == Rule(keys) && k + 2 == |keys| && Key(keys[k]) !in b.states[HOME_STATE_IDX].edges
    ensures InsertNode(b, s, k, HOME_STATE_IDX) == Some((Opened(b, s, k, keys[k]), |b.states|))
  {
  }

  lemma SecondTrigger(b: Build, s: Sequence, keys: seq<KeyCode>, k: nat)
    requires ValidBuild(b) && s == Rule(keys) && k + 2 == |keys| && ValidBuild(Opened(b, s, k, keys[k]))
    ensures InsertNode(Opened(b, s, k, keys[k]), s, k + 1, |b.states|) ==
      Some((Added(b, keys[k], LoopState(keys[..k + 1], keys[k + 1])), HOME_STATE_IDX))
  {
    var last, b1 := Key(keys[k + 1]), Opened(b, s, k, keys[k]);
    assert Events(s.nodes)[..k + 1] == Events(KeyNodes(keys[..k + 1]));
    assert CompleteEdge(s, last) == To(HOME_STATE_IDX);
    assert SetEdge(b1, |b.states|, last, To(HOME_STATE_IDX)).states == Added(b, keys[k], LoopState(keys[..k + 1], keys[k + 1])).states;
  }

  /** Two triggers: the first makes a state, the second leads home from it. */
  lemma TwoTriggers(b: Build, s: Sequence, keys: seq<KeyCode>, k: nat)
    requires ValidBuild(b) && s == Rule(keys) && k + 2 == |keys| && Key(keys[k]) !in b.states[HOME_STATE_IDX].edges
    requires InsertPrefix(b, s, k) == Some((b, HOME_STATE_IDX))
    ensures InsertPrefix(b, s, k + 2) == Some((Added(b, keys[k], LoopState(keys[..k + 1], keys[k + 1])), HOME_STATE_IDX))
  {
    PrefixStep(b, s, k, b, HOME_STATE_IDX);
    FirstTrigger(b, s, keys, k);
    PrefixStep(b, s, k + 1, Opened(b, s, k, keys[k]), |b.states|);
    SecondTrigger(b, s, keys, k);
  }

  /** The first two keys of a word come back to HOME when they are a complete word themselves. */
  lemma BackHome(b: Build, s: Sequence, keys: seq<KeyCode>, i: nat)
    requires ValidBuild(b) && s == Rule(keys) && |keys| == 4 && 0 < i < |b.states|
    requires b.metadata[HOME_STATE_IDX] == HOME_METADATA && b.metadata[i] == LOOP_METADATA
    requires Key(keys[0]) in b.states[HOME_STATE_IDX].edges && b.states[HOME_STATE_IDX].edges[Key(keys[0])] == To(i)
    requires Key(keys[1]) in b.states[i].edges && b.states[i].edges[Key(keys[1])] == To(HOME_STATE_IDX)
    ensures InsertPrefix(b, s, 2) == Some((b, HOME_STATE_IDX))
  {
    PrefixStep(b, s, 0, b, HOME_STATE_IDX);
    PrefixStep(b, s, 1, b, i);
  }

  lemma WordAdded(n: nat, b: Build, keys: seq<KeyCode>, k: nat, key: KeyCode, state: State, b': Build)
    requires n < |LOOP_RULES| && LOOP_RULES[n] == Rule(keys) && k + 2 == |keys| && key == keys[k]
    requires state == LoopState(keys[..k + 1], keys[k + 1]) && |b.states| > 0 && b' == Added(b, key, state)
    requires CompilePrefix(LOOP_RULES, n) == Some(b) && Key(key) !in b.states[HOME_STATE_IDX].edges
    requires InsertPrefix(b, Rule(keys), k) == Some((b, HOME_STATE_IDX))
    ensures CompilePrefix(LOOP_RULES, n + 1) == Some(b')
  {
    CompileNext(LOOP_RULES, n, b);
    TwoTriggers(b, Rule(keys), keys, k);
  }

  const LOOP_ONE := Added(HOME_BUILD, 0, LoopState([0], 1))
  const LOOP_TWO := Added(LOOP_ONE, 2, LoopState([0, 1, 2], 4))
  const LOOP_THREE := Added(LOOP_TWO, 3, LoopState([3], 2))
  const LOOP_FOUR := Added(LOOP_THREE, 1, LoopState([3, 2, 1], 4))

  lemma FirstInserted()
    ensures CompilePrefix(LOOP_RULES, 1) == Some(LOOP_ONE)
  {
    var keys := [0, 1];
    assert keys[..1] == [0];
    WordAdded(0, HOME_BUILD, keys, 0, 0, LoopState(keys[..1], 1), LOOP_ONE);
  }

  lemma SecondInserted()
    requires CompilePrefix(LOOP_RULES, 1) == Some(LOOP_ONE)
    ensures CompilePrefix(LOOP_RULES, 2) == Some(LOOP_TWO)
  {
    var keys := [0, 1, 2, 4];
    BackHome(LOOP_ONE, Rule(keys), keys, 1);
    assert keys[..3] == [0, 1, 2];
    WordAdded(1, LOOP_ONE, keys, 2, 2, LoopState(keys[..3], 4), LOOP_TWO);
  }

  lemma ThirdInserted()
    requires CompilePrefix(LOOP_RULES, 2) == Some(LOOP_TWO)
    ensures CompilePrefix(LOOP_RULES, 3) == Some(LOOP_THREE)
  {
    var keys := [3, 2];
    assert keys[..1] == [3];
    assert Key(3) !in LOOP_TWO.states[HOME_STATE_IDX].edges;
    WordAdded(2, LOOP_TWO, keys, 0, 3, LoopState(keys[..1], 2), LOOP_THREE);
  }

  lemma LoopThree()
    ensures |LOOP_THREE.states| == |LOOP_THREE.metadata| == 4 && Key(1) !in LOOP_THREE.states[HOME_STATE_IDX].edges
    ensures LOOP_THREE.metadata[HOME_STATE_IDX] == HOME_METADATA && LOOP_THREE.metadata[3] == LOOP_METADATA
    ensures Key(3) in LOOP_THREE.states[HOME_STATE_IDX].edges && LOOP_THREE.states[HOME_STATE_IDX].edges[Key(3)] == To(3)
    ensures LOOP_THREE.states[3] == LoopState([3], 2)
  {
  }

  lemma BackHomeAgain()
    requires ValidBuild(LOOP_THREE)
    ensures InsertPrefix(LOOP_THREE, Rule([3, 2, 1, 4]), 2) == Some((LOOP_THREE, HOME_STATE_IDX))
  {
    LoopThree();
    BackHome(LOOP_THREE, Rule([3, 2, 1, 4]), [3, 2, 1, 4], 3);
  }

  lemma LastInserted()
    requires CompilePrefix(LOOP_RULES, 3) == Some(LOOP_THREE)
    ensures CompilePrefix(LOOP_RULES, 4) == Some(LOOP_FOUR)
  {
    var keys := [3, 2, 1, 4];
    LoopThree();
    BackHomeAgain();
    assert keys[..3] == [3, 2, 1];
    WordAdded(3, LOOP_THREE, keys, 2, 1, LoopState(keys[..3], 4), LOOP_FOUR);
  }

  lemma LoopStates()
    ensures LOOP_FOUR.states == LOOP_STATES
  {
    assert LOOP_FOUR.states[0].edges == LOOP_HOME.edges;
  }

  lemma LoopInserted()
    ensures Compile(LOOP_RULES) == Some(LOOP_STATES)
  {
    FirstInserted();
    SecondInserted();
    ThirdInserted();
    LastInserted();
    LoopStates();
  }

  lemma LoopLayerCompiles()
    ensures NormalLayer(LOOP_LAYER) && CompileLayer(LOOP_LAYER) == Some((LOOP_STATES, map[]))
  {
    LoopParsed();
    LoopInserted();
    assert BasicMap(LOOP_LAYER.basicRemappings, 0) == Some(map[]);
  }

  lemma OneLayer(layer: Layer, states: seq<State>, basics: map<InputEvent, seq<Bind>>)
    requires NormalLayer(layer) && CompileLayer(layer) == Some((states, basics))
    ensures CompileLayers([layer], 1) == Some(Compiled([states], [basics]))
  {
    assert CompileLayers([layer], 0) == Some(Compiled([], []));
    CompileLayersNext([layer], 0, Compiled([], []));
    assert Compiled([] + [states], [] + [basics]) == Compiled([states], [basics]);
  }

  lemma LoopFormed()
    requires NormalLayer(LOOP_LAYER)
    ensures WellFormed(LOOP_PROFILE)
  {
    assert LOOP_PROFILE.layers == [LOOP_LAYER] && LayerSwapsBelow(LOOP_LAYER, 1);
  }

  /** The profile is well formed and accepted, and no basic remapping or layer swap plays any part. */
  lemma LoopCompiles()
    ensures WellFormed(LOOP_PROFILE) && CompileProfile(LOOP_PROFILE) == Some(LOOP) && Fits(LOOP)
  {
    LoopLayerCompiles();
    OneLayer(LOOP_LAYER, LOOP_STATES, map[]);
    LoopFormed();
    CompiledFits(LOOP_PROFILE, LOOP);
  }

  /** The keys that states 2 and 4 replay; the first leads to the other state and the second fails it. */
  function LoopReplays(state: nat): seq<InputEvent> {
    if state == 2 then [Key(1)] + [Key(2)] else [Key(2)] + [Key(1)]
  }

  function LoopHolds(state: nat): seq<KeyCode> {
    if state == 2 then [0, 1, 2] else [3, 2, 1]
  }

  lemma LoopChosen(c: Core, e: InputEvent)
    requires Fit(LOOP, c) && (c.state == 2 || c.state == 4) && e != Key(4)
    ensures Chosen(LOOP, c, e) == Fallback(SequenceBehavior.Default, Events(KeyNodes(LoopHolds(c.state))))
  {
    assert LOOP.states[c.layer] == LOOP_STATES;
    assert e !in LOOP_STATES[c.state].edges;
  }

  lemma HoldsReplays(state: nat)
    requires state == 2 || state == 4
    ensures Events(KeyNodes(LoopHolds(state))) != []
    ensures Events(KeyNodes(LoopHolds(state)))[1..] == LoopReplays(state)
  {
  }

  lemma FallbackEnters(cp: Compiled, clock: Clock, c: Core, e: InputEvent, word: seq<InputEvent>)
    requires Fit(cp, c) && !c.paused && word != [] && Chosen(cp, c, e) == Fallback(SequenceBehavior.Default, word)
    ensures Termination.Entered(cp, clock, c, e).state == HOME_STATE_IDX
    ensures RedoEvents(Chosen(cp, c, e).outputs, Some(e)) == word[1..]
  {
    FallbackEvents(SequenceBehavior.Default, word, Some(e));
  }

  lemma LoopFallback(clock: Clock, c: Core, e: InputEvent)
    requires Fit(LOOP, c) && !c.paused && (c.state == 2 || c.state == 4) && e != Key(4)
    ensures Termination.Entered(LOOP, clock, c, e).state == HOME_STATE_IDX
    ensures RedoEvents(Chosen(LOOP, c, e).outputs, Some(e)) == LoopReplays(c.state)
  {
    LoopChosen(c, e);
    HoldsReplays(c.state);
    FallbackEnters(LOOP, clock, c, e, Events(KeyNodes(LoopHolds(c.state))));
  }

  /** From state 2 or 4 any event but z starts a chain of replays that never ends. */
  lemma {:induction false} NeverDone(clock: Clock, c: Core, e: InputEvent, depth: nat)
    requires Fit(LOOP, c) && !c.paused && (c.state == 2 || c.state == 4) && e != Key(4)
    ensures ProcessWithin(LOOP, clock, c, e, depth).None?
    decreases depth, 0
  {
    if depth > 0 {
      LoopFallback(clock, c, e);
      Termination.CallReplays(LOOP, clock, c, e, depth);
      BothReplays(clock, Termination.Entered(LOOP, clock, c, e), c.state, depth - 1);
    }
  }

  /** The first replayed key leads to the other state, where the second is as fatal. */
  lemma {:induction false} BothReplays(clock: Clock, c: Core, state: nat, depth: nat)
    requires Fit(LOOP, c) && !c.paused && c.state == HOME_STATE_IDX && (state == 2 || state == 4)
    ensures ProcessAllWithin(LOOP, clock, c, LoopReplays(state), depth).None?
    decreases depth, 1
  {
    if depth > 0 {
      var first: KeyCode, second: KeyCode := if state == 2 then 1 else 2, if state == 2 then 2 else 1;
      var c' := FromHome(clock, c, first, depth);
      NeverDone(clock, c', Key(second), depth);
      SecondFails(LOOP, clock, c, Key(first), Key(second), depth, c');
    }
  }

  lemma SecondFails(cp: Compiled, clock: Clock, c: Core, a: InputEvent, b: InputEvent, depth: nat, c': Core)
    requires Fit(cp, c) && !c.paused && ProcessWithin(cp, clock, c, a, depth) == Some(c')
    requires ProcessWithin(cp, clock, c', b, depth).None?
    ensures ProcessAllWithin(cp, clock, c, [a] + [b], depth).None?
  {
    assert ([a] + [b])[1..] == [b];
  }

  /** Key c leads from HOME to state 2, key b to state 4. */
  lemma FromHome(clock: Clock, c: Core, k: KeyCode, depth: nat) returns (c': Core)
    requires Fit(LOOP, c) && !c.paused && c.state == HOME_STATE_IDX && depth > 0 && (k == 2 || k == 1)
    ensures ProcessWithin(LOOP, clock, c, Key(k), depth) == Some(c') && Fit(LOOP, c') && !c'.paused
    ensures c'.state == if k == 2 then 2 else 4
  {
    ChosenApplies(LOOP, c, Key(k));
    assert c.layer == 0 && LOOP.states[c.layer] == LOOP_STATES;
    var t, c1 := Chosen(LOOP, c, Key(k)), c.(calls := c.calls + 1);
    assert t == To(if k == 2 then 2 else 4);
    c' := Enter(clock, c1, t);
    assert ApplyWithin(LOOP, clock, c1, t, Some(Key(k)), depth - 1) == Some(c');
  }

  /** An accepted profile, two keys, and no end: after the first key no depth is enough for the second. */
  lemma {:induction false} ReplayDiverges(clock: Clock, e: InputEvent)
    requires e != Key(4)
    ensures WellFormed(LOOP_PROFILE) && CompileProfile(LOOP_PROFILE) == Some(LOOP) && SysFits(StartMapper(LOOP_PROFILE))
    ensures var after := ProcessWithin(LOOP, clock, StartMapper(LOOP_PROFILE).core, Key(2), 1);
      && after.Some? && !after.value.paused
      && (forall depth: nat :: ProcessWithin(LOOP, clock, after.value, e, depth).None?)
      && !Termination.Ends(LOOP, after.value.layer, after.value.state, e)
  {
    LoopCompiles();
    StartFits(LOOP_PROFILE);
    var after := FromHome(clock, StartMapper(LOOP_PROFILE).core, 2, 1);
    forall depth: nat
      ensures ProcessWithin(LOOP, clock, after, e, depth).None?
    {
      NeverDone(clock, after, e, depth);
    }
    Termination.EndsExactly(LOOP, clock, after, e);
  }
}
