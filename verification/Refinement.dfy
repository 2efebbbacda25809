/** The compiled automaton, run by the mapper, does what the reference matcher does, over every run. */
module Refinement {
  import opened Options
  import opened Profiles
  import opened Automata
  import StateMachine
  import TreeShape
  import opened Trie
  import opened Acceptance
  import opened Structure
  import opened Outputs
  import opened OutputQueue
  import opened MapperModel
  import opened Replaying
  import opened Profiling
  import opened MapperRuns
  import opened Matching

  // ---------- one state of a finished build, read by scanning ----------

  lemma WordOfOwner(b: Build, l: Labelling, seqs: seq<Sequence>, j: nat)
    requires Finished(b, l, seqs) && j < |b.states|
    ensures l.labels[j].word == [] <==> j == HOME_STATE_IDX
    ensures j == HOME_STATE_IDX ==> l.labels[j] == HOME_LABEL
    ensures j > 0 ==> StateOk(b, l, seqs, |seqs|, 0, j)
  {
    if j > 0 {
      assert StateOk(b, l, seqs, |seqs|, 0, j);
    }
  }

  /** Whatever sequence the scan finds for a state's word describes that state. */
  lemma StateByScan(b: Build, l: Labelling, seqs: seq<Sequence>, j: nat) returns (m: nat)
    requires Finished(b, l, seqs) && CompatibleAll(seqs) && 0 < j < |b.states|
    ensures Scan(seqs, l.labels[j].word) == Some(m) && m < |seqs|
    ensures 0 < |l.labels[j].word| <= |seqs[m].nodes| && l.labels[j].word == Word(seqs[m])[..|l.labels[j].word|]
    ensures if l.labels[j].waited then
        DescribesWaited(b.states[j], b.metadata[j], seqs[m], |l.labels[j].word|)
      else DescribesEntered(b.states[j], b.metadata[j], seqs[m], |l.labels[j].word|, l.labels)
  {
    assert StateOk(b, l, seqs, |seqs|, 0, j);
    var word, o := l.labels[j].word, l.owner[j];
    assert word <= Word(seqs[o]);
    m := Scan(seqs, word).value;
    assert Word(seqs[m])[..|word|] == word;
    SharersAgree(seqs, o, m, |word|);
    if o != m {
      NotBoth(seqs, m, o, |word|);
    }
  }

  lemma NotBoth(seqs: seq<Sequence>, m: nat, o: nat, d: nat)
    requires ClashFree(seqs, |seqs|) && o < |seqs| && m < |seqs| && SharePrefix(seqs[o], seqs[m], d) && m != o
    ensures d < |seqs[m].nodes| && d < |seqs[o].nodes|
  {
    NotExhausted(seqs, m, o, d);
    NotExhausted(seqs, o, m, d);
  }

  /** No minimum wait is being sat out. */
  predicate Open(seqs: seq<Sequence>, name: Label) {
    var found := Scan(seqs, name.word);
    name.word == [] || name.waited || found.None? || !IsMinimum(TimerAfter(seqs[found.value], |name.word|))
  }

  /** A state has no edges while a minimum wait is on; otherwise an edge leads where the scan says. */
  lemma EdgeByScan(b: Build, l: Labelling, seqs: seq<Sequence>, j: nat, e: InputEvent)
    requires Finished(b, l, seqs) && CompatibleAll(seqs) && j < |b.states|
    requires Open(seqs, l.labels[j])
    ensures var found := Scan(seqs, l.labels[j].word + [e]);
      && (e in b.states[j].edges <==> found.Some?)
      && (found.Some? ==> EdgeFits(b, l, j, seqs[found.value], e))
  {
    var word := l.labels[j].word;
    var found := Scan(seqs, word + [e]);
    if found.Some? {
      var m, d := found.value, |word|;
      assert Word(seqs[m])[..d] == word && seqs[m].nodes[d].event == e;
      ActiveByScan(b, l, seqs, j, m);
      var cur := SequenceEdge(b, l, seqs, m, d);
      assert l.labels[cur] == l.labels[j] && cur == j;
      if !IsLast(seqs[m], d) {
        var _, t := SequenceEntered(b, l, seqs, m, d);
        assert Word(seqs[m])[..d + 1] == word + [e];
      }
    } else if e in b.states[j].edges {
      var m := EdgeSpelled(b, l, seqs, j, e);
    }
  }

  /** What the edge on `e` is when `s` is the sequence that goes on with it. */
  predicate EdgeFits(b: Build, l: Labelling, j: nat, s: Sequence, e: InputEvent)
  {
    && j < |b.states| && j < |l.labels| && e in b.states[j].edges
    && var t := b.states[j].edges[e];
    var word := l.labels[j].word + [e];
    if IsComplete(s, word) then t == CompleteEdge(s, e)
    else
      && t == Transition(Ms(TimerAfter(s, |word|)), Released(s.behavior, e), t.newState)
      && 0 < t.newState < |l.labels| && l.labels[t.newState] == Label(word, false)
  }

  /** Every edge spells the beginning of some sequence's word. */
  lemma EdgeSpelled(b: Build, l: Labelling, seqs: seq<Sequence>, j: nat, e: InputEvent) returns (m: nat)
    requires Finished(b, l, seqs) && j < |b.states| && e in b.states[j].edges
    ensures m < |seqs| && l.labels[j].word + [e] <= Word(seqs[m])
  {
    assert EdgeOk(b, l, seqs, |seqs|, 0, j, e);
    var t, word := b.states[j].edges[e], l.labels[j].word + [e];
    if t.newState == HOME_STATE_IDX {
      var k: nat :| Completes(seqs, |seqs|, 0, k, word) && t == CompleteEdge(seqs[k], e);
      m := k;
    } else {
      assert StateOk(b, l, seqs, |seqs|, 0, t.newState);
      m := l.owner[t.newState];
    }
  }

  /** The label of a state that is not sitting out a minimum wait is where each sequence through it waits. */
  lemma ActiveByScan(b: Build, l: Labelling, seqs: seq<Sequence>, j: nat, m: nat)
    requires Finished(b, l, seqs) && CompatibleAll(seqs) && j < |b.states| && m < |seqs|
    requires l.labels[j].word <= Word(seqs[m]) && |l.labels[j].word| < |seqs[m].nodes|
    requires Open(seqs, l.labels[j])
    ensures ActiveLabel(seqs[m], |l.labels[j].word|) == l.labels[j]
  {
    WordOfOwner(b, l, seqs, j);
    if j > 0 {
      var o := StateByScan(b, l, seqs, j);
      ReadersAgree(seqs, o, m, l.labels[j].word);
    }
  }

  /** All sequences that read a word the same way behave the same and have the same timer after it. */
  lemma ReadersAgree(seqs: seq<Sequence>, o: nat, m: nat, word: seq<InputEvent>)
    requires ClashFree(seqs, |seqs|) && CompatibleAll(seqs) && o < |seqs| && m < |seqs|
    requires word != [] && word <= Word(seqs[o]) && word <= Word(seqs[m])
    ensures seqs[o].behavior == seqs[m].behavior && TimerAfter(seqs[o], |word|) == TimerAfter(seqs[m], |word|)
  {
    assert Word(seqs[m])[..|word|] == word == Word(seqs[o])[..|word|];
    SharersAgree(seqs, o, m, |word|);
  }

  // ---------- the two side by side ----------

  /** A profile, its compilation, and for every layer what the states stand for. */
  datatype World = World(p: Profile, cp: Compiled, builds: seq<Build>, labellings: seq<Labelling>)

  ghost predicate LayerOk(w: World, i: nat)
    requires NormalProfile(w.p) && i < |w.p.layers|
  {
    && i < |w.builds| && i < |w.labellings| && i < |w.cp.states|
    && Finished(w.builds[i], w.labellings[i], ParseLayer(w.p.layers[i]))
    && w.builds[i].states == w.cp.states[i]
  }

  ghost predicate WorldOk(w: World) {
    && Sound(w.p) && CompileProfile(w.p) == Some(w.cp) && Runnable(w.cp)
    && |w.cp.states| == |w.p.layers|
    && forall i :: 0 <= i < |w.p.layers| ==> LayerOk(w, i)
  }

  /** The mapper's state is the one the matcher's pending word leads to; all else is equal. */
  ghost predicate Sim(w: World, c: Core, x: Matcher) {
    && WorldOk(w) && CoreOk(w.cp, c)
    && c.layer == x.layer && c.timer == x.timer && c.paused == x.paused && c.out == x.out
    && LayerOk(w, c.layer)
    && w.labellings[c.layer].labels[c.state] == Label(x.word, x.waited)
  }

  lemma {:induction false} FoundFirst(remappings: seq<BasicRemapping>, event: InputEvent) returns (i: nat)
    ensures FindRemapping(remappings, event).None? ==>
      forall j :: 0 <= j < |remappings| ==> BasicTriggerToInput(remappings[j].trigger) != event
    ensures FindRemapping(remappings, event).Some? ==>
      i < |remappings| && BasicTriggerToInput(remappings[i].trigger) == event &&
      FindRemapping(remappings, event).value == remappings[i].binds
  {
    i := 0;
    if remappings != [] && BasicTriggerToInput(remappings[0].trigger) != event {
      var k := FoundFirst(remappings[1..], event);
      i := k + 1;
    }
  }

  /** The basic map finds what a scan of the remappings finds. */
  lemma SameRemapping(w: World, layer: nat, event: InputEvent)
    requires WorldOk(w) && layer < |w.p.layers|
    ensures Remapping(w.cp, layer, event) == FindRemapping(w.p.layers[layer].basicRemappings, event)
  {
    var remappings := w.p.layers[layer].basicRemappings;
    assert CompileLayer(w.p.layers[layer]) == Some((w.cp.states[layer], w.cp.basics[layer]));
    BasicMapExact(remappings, |remappings|);
    var i := FoundFirst(remappings, event);
  }

  lemma HomeLabel(w: World, i: nat)
    requires WorldOk(w) && i < |w.p.layers|
    ensures LayerOk(w, i) && |w.cp.states[i]| > 0 && w.labellings[i].labels[HOME_STATE_IDX] == HOME_LABEL
  {
    assert LayerOk(w, i);
  }

  lemma SimReset(w: World, c: Core, x: Matcher)
    requires Sim(w, c, x)
    ensures Sim(w, c.(state := HOME_STATE_IDX, timer := None), Reset(x))
  {
    HomeLabel(w, c.layer);
  }

  lemma SimSwap(w: World, c: Core, x: Matcher, layer: Option<nat>)
    requires Sim(w, c, x) && (layer.Some? ==> layer.value < |w.p.layers|)
    ensures Sim(w, SwapTo(c, layer), MoveTo(x, layer))
  {
    if layer.Some? {
      HomeLabel(w, layer.value);
    }
  }

  lemma SimPass(w: World, clock: Clock, c: Core, x: Matcher, e: InputEvent)
    requires Sim(w, c, x) && !c.paused
    ensures Sim(w, Deliver(w.cp, clock, c, e), Pass(w.p, clock, x, e)) && !Deliver(w.cp, clock, c, e).paused
  {
    var remapping := Remapping(w.cp, c.layer, e);
    SameRemapping(w, c.layer, e);
    assert BasicsRun(w.cp, c.layer);
    if remapping.Some? {
      LastSwapBelow(remapping.value, |w.p.layers|);
    }
    var out := DeliverOut(clock, c.out, e, remapping);
    assert Sim(w, c.(out := out), Note(x, Passed(e)).(out := out));
    SimSwap(w, c.(out := out), Note(x, Passed(e)).(out := out), DeliverSwap(remapping));
  }

  lemma SimEmit(w: World, clock: Clock, c: Core, x: Matcher, bind: Bind)
    requires Sim(w, c, x) && !c.paused && SwapsBelow([bind], |w.p.layers|)
    ensures Sim(w, EmitBind(clock, c, bind), EmitOne(clock, x, bind)) && !EmitBind(clock, c, bind).paused
  {
    LastSwapBelow([bind], |w.p.layers|);
    var out := EmitOut(clock, c.out, bind);
    SimSwap(w, c.(out := out), x.(out := out), LastSwap([bind]));
  }

  // ---------- lists of outputs ----------

  lemma {:induction false} RunOutputsAppend(cp: Compiled, clock: Clock, c: Core, a: seq<StateMachineOutput>,
                                            b: seq<StateMachineOutput>, prev: Option<InputEvent>)
    requires Ok(cp, c) && !c.paused && OutputsBelow(a, |cp.states|) && OutputsBelow(b, |cp.states|)
    ensures OutputsBelow(a + b, |cp.states|)
    ensures RunOutputs(cp, clock, c, a + b, prev) == RunOutputs(cp, clock, RunOutputs(cp, clock, c, a, prev), b, prev)
    decreases |b|
  {
    if b == [] {
      assert a + b == a;
    } else {
      var last := |b| - 1;
      assert (a + b)[..|a + b| - 1] == a + b[..last];
      RunOutputsAppend(cp, clock, c, a, b[..last], prev);
    }
  }

  lemma {:induction false} RunReplays(cp: Compiled, clock: Clock, c: Core, events: seq<InputEvent>,
                                      prev: Option<InputEvent>)
    requires Ok(cp, c) && !c.paused
    ensures OutputsBelow(ReplayAll(events), |cp.states|) && RunOutputs(cp, clock, c, ReplayAll(events), prev) == c
    decreases |events|
  {
    if events != [] {
      var last := |events| - 1;
      assert ReplayAll(events)[..last] == ReplayAll(events[..last]);
      RunReplays(cp, clock, c, events[..last], prev);
    }
  }

  lemma {:induction false} SimEmitEach(w: World, clock: Clock, c: Core, x: Matcher, binds: seq<Bind>,
                                       prev: Option<InputEvent>,
                                       r: Core, y: Matcher)
    requires Sim(w, c, x) && !c.paused && SwapsBelow(binds, |w.p.layers|) && OutputsBelow(EmitAll(binds), |w.cp.states|)
    requires r == RunOutputs(w.cp, clock, c, EmitAll(binds), prev) && y == EmitEach(clock, x, binds)
    ensures Sim(w, r, y)
    decreases |binds|
  {
    if binds != [] {
      var before, last := binds[..|binds| - 1], binds[|binds| - 1];
      RunEmitsNext(w.cp, clock, c, binds, prev);
      var r1, y1 := RunOutputs(w.cp, clock, c, EmitAll(before), prev), EmitEach(clock, x, before);
      SimEmitEach(w, clock, c, x, before, prev, r1, y1);
      SimEmit(w, clock, r1, y1, last);
    }
  }

  /** A single translation of a given event, or of the current one. */
  lemma RunTranslation(cp: Compiled, clock: Clock, c: Core, event: Option<InputEvent>, prev: Option<InputEvent>)
    requires Ok(cp, c) && !c.paused
    ensures var e := if event.Some? then event else prev;
      RunOutputs(cp, clock, c, [BasicTranslation(event)], prev) == if e.Some? then Deliver(cp, clock, c, e.value) else c
  {
    var outputs: seq<StateMachineOutput> := [BasicTranslation(event)];
    assert outputs[..0] == [];
  }

  // ---------- one event ----------

  predicate AtHome(c: Core) {
    c.state == HOME_STATE_IDX && c.timer.None?
  }

  lemma DeliverStaysHome(w: World, clock: Clock, c: Core, x: Matcher, e: InputEvent)
    requires Sim(w, c, x) && !c.paused && AtHome(c)
    ensures AtHome(Deliver(w.cp, clock, c, e))
  {
  }

  lemma SimFire(w: World, clock: Clock, c: Core, x: Matcher, s: Sequence, events: seq<InputEvent>,
                prev: Option<InputEvent>)
    requires Sim(w, c, x) && !c.paused && AtHome(c) && SwapsBelow(s.binds, |w.p.layers|)
    ensures OutputsBelow(EmitAll(s.binds), |w.cp.states|)
    ensures Sim(w, RunOutputs(w.cp, clock, c, EmitAll(s.binds), prev), Fire(clock, x, s, events))
  {
    SimReset(w, c, x);
    assert c == c.(state := HOME_STATE_IDX, timer := None);
    assert Sim(w, c, Note(Reset(x), Fired(s, events)));
    EmitsBelow(s.binds, |w.cp.states|);
    SimEmitEach(w, clock, c, Note(Reset(x), Fired(s, events)), s.binds, prev,
                RunOutputs(w.cp, clock, c, EmitAll(s.binds), prev), Fire(clock, x, s, events));
  }

  /** The last event of a sequence: released if need be, then its binds. */
  lemma SimComplete(w: World, clock: Clock, c: Core, x: Matcher, s: Sequence, e: InputEvent, events: seq<InputEvent>)
    requires Sim(w, c, x) && !c.paused && AtHome(c) && MatcherOk(w.p, x) && SwapsBelow(s.binds, |w.p.layers|)
    ensures var outputs := Released(s.behavior, e) + EmitAll(s.binds);
      var x1 := if s.behavior == SequenceBehavior.Release then Pass(w.p, clock, x, e) else x;
      && OutputsBelow(outputs, |w.cp.states|)
      && Sim(w, RunOutputs(w.cp, clock, c, outputs, Some(e)), Fire(clock, x1, s, events))
  {
    var c1, x1 := c, x;
    if s.behavior == SequenceBehavior.Release {
      RunTranslation(w.cp, clock, c, Some(e), Some(e));
      SimPass(w, clock, c, x, e);
      DeliverStaysHome(w, clock, c, x, e);
      c1, x1 := Deliver(w.cp, clock, c, e), Pass(w.p, clock, x, e);
    }
    assert c1 == RunOutputs(w.cp, clock, c, Released(s.behavior, e), Some(e));
    SimFire(w, clock, c1, x1, s, events, Some(e));
    RunOutputsAppend(w.cp, clock, c, Released(s.behavior, e), EmitAll(s.binds), Some(e));
  }

  /** Moving within a layer to the state of another label. */
  lemma SimMove(w: World, c: Core, x: Matcher, j: nat, timer: Option<nat>, out: Out, word: seq<InputEvent>, waited: bool)
    requires Sim(w, c, x) && !c.paused && j < |w.cp.states[c.layer]|
    requires timer.Some? ==> w.cp.states[c.layer][j].timer.Some?
    requires w.labellings[c.layer].labels[j] == Label(word, waited)
    ensures Sim(w, c.(state := j, timer := timer, out := out), x.(word := word, waited := waited, timer := timer, out := out))
  {
  }

  /** Entering the state of a longer word, with its timer armed. */
  lemma SimArm(w: World, clock: Clock, c: Core, x: Matcher, t: Transition, timer: Option<Timer>, word: seq<InputEvent>)
    requires Sim(w, c, x) && !c.paused && t.newState < |w.cp.states[c.layer]| && t.timerMs == Ms(timer)
    requires t.timerMs.Some? ==> w.cp.states[c.layer][t.newState].timer.Some?
    requires w.labellings[c.layer].labels[t.newState] == Label(word, false)
    ensures Sim(w, Enter(clock, c, t), Arm(clock, x.(word := word, waited := false), timer))
  {
    var c' := Enter(clock, c, t);
    SimMove(w, c, x, t.newState, c'.timer, c'.out, word, false);
  }

  lemma LayerFacts(w: World, c: Core, x: Matcher) returns (b: Build, l: Labelling, seqs: seq<Sequence>)
    requires Sim(w, c, x)
    ensures MatcherOk(w.p, x) && seqs == Rules(w.p, x) && b == w.builds[c.layer] && l == w.labellings[c.layer]
    ensures Finished(b, l, seqs) && CompatibleAll(seqs) && b.states == w.cp.states[c.layer] && c.state < |b.states|
    ensures c.state == HOME_STATE_IDX <==> x.word == []
    ensures x.word == [] ==> !x.waited
    ensures l.labels[c.state] == Label(x.word, x.waited)
  {
    b, l, seqs := w.builds[c.layer], w.labellings[c.layer], ParseLayer(w.p.layers[c.layer]);
    assert LayerOk(w, c.layer);
    WordOfOwner(b, l, seqs, c.state);
  }

  /** The transition the automaton takes is the one the scan calls for. */
  lemma ChosenByScan(w: World, c: Core, x: Matcher, e: InputEvent)
    requires Sim(w, c, x) && !c.paused
    ensures MatcherOk(w.p, x)
    ensures var found := if Blocked(w.p, x) then None else Scan(Rules(w.p, x), x.word + [e]);
      if found.Some? then
        EdgeFits(w.builds[c.layer], w.labellings[c.layer], c.state, Rules(w.p, x)[found.value], e) &&
        Chosen(w.cp, c, e) == w.builds[c.layer].states[c.state].edges[e]
      else Chosen(w.cp, c, e) == w.cp.states[c.layer][c.state].fallback
  {
    var b, l, seqs := LayerFacts(w, c, x);
    if Blocked(w.p, x) {
      var m := StateByScan(b, l, seqs, c.state);
      assert b.states[c.state].edges == map[];
    } else {
      EdgeByScan(b, l, seqs, c.state, e);
    }
  }

  lemma SimAdvance(w: World, clock: Clock, c: Core, x: Matcher, m: nat, e: InputEvent)
    requires Sim(w, c, x) && !c.paused && MatcherOk(w.p, x) && m < |Rules(w.p, x)|
    requires EdgeFits(w.builds[c.layer], w.labellings[c.layer], c.state, Rules(w.p, x)[m], e)
    requires Chosen(w.cp, c, e) == w.builds[c.layer].states[c.state].edges[e]
    ensures Sim(w, Process(w.cp, clock, c, e), Advance(w.p, clock, x, m, e))
  {
    var s, word, t := Rules(w.p, x)[m], x.word + [e], Chosen(w.cp, c, e);
    var c0 := c.(calls := c.calls + 1);
    ProcessIsApply(w.cp, clock, c, e);
    assert Sim(w, c0, x);
    var c1 := Enter(clock, c0, t);
    if IsComplete(s, word) {
      SimReset(w, c0, x);
      RuleBelow(w.p, x, m);
      SimComplete(w, clock, c1, Reset(x), s, e, Unreleased(s, word));
      CompleteReplaysNothing(s, e);
    } else {
      var x1 := Arm(clock, x.(word := word, waited := false), TimerAfter(s, |word|));
      SimArm(w, clock, c0, x, t, TimerAfter(s, |word|), word);
      if s.behavior == SequenceBehavior.Release {
        RunTranslation(w.cp, clock, c1, Some(e), Some(e));
        SimPass(w, clock, c1, x1, e);
      }
    }
  }

  /** The fallback of the current state, read off the pending word. */
  lemma FallbackByScan(w: World, c: Core, x: Matcher)
    requires Sim(w, c, x)
    ensures MatcherOk(w.p, x)
    ensures var fallback := w.cp.states[c.layer][c.state].fallback;
      if x.waited then fallback == SILENT_FALLBACK
      else if x.word == [] then fallback == HOME_STATE.fallback && Reading(w.p, x).None?
      else Reading(w.p, x).Some? && fallback == Fallback(Reading(w.p, x).value.behavior, x.word)
  {
    var b, l, seqs := LayerFacts(w, c, x);
    if x.word != [] {
      var m := StateByScan(b, l, seqs, c.state);
    }
  }

  /** The direct outputs of a Default fallback: first event, then the current one. */
  lemma RunFallback(cp: Compiled, clock: Clock, c: Core, word: seq<InputEvent>, e: Option<InputEvent>)
    requires Ok(cp, c) && !c.paused && word != []
    ensures var outputs := Fallback(SequenceBehavior.Default, word).outputs;
      var c1 := Deliver(cp, clock, c, word[0]);
      && OutputsBelow(outputs, |cp.states|) && CoreOk(cp, c1) && !c1.paused
      && RunOutputs(cp, clock, c, outputs, e) == if e.Some? then Deliver(cp, clock, c1, e.value) else c1
  {
    var first: seq<StateMachineOutput> := [BasicTranslation(Some(word[0]))];
    var none: seq<StateMachineOutput> := [BasicTranslation(None)];
    var c1 := Deliver(cp, clock, c, word[0]);
    RunTranslation(cp, clock, c, Some(word[0]), e);
    RunReplays(cp, clock, c1, word[1..], e);
    RunOutputsAppend(cp, clock, c, first, ReplayAll(word[1..]), e);
    RunTranslation(cp, clock, c1, None, e);
    RunOutputsAppend(cp, clock, c, Replay(word), none, e);
  }

  lemma SimGiveBack(w: World, clock: Clock, c: Core, x: Matcher, e: Option<InputEvent>)
    requires Sim(w, c, Reset(x)) && !c.paused && x.word != [] && MatcherOk(w.p, x)
    ensures var outputs := Fallback(SequenceBehavior.Default, x.word).outputs;
      && OutputsBelow(outputs, |w.cp.states|)
      && Sim(w, RunOutputs(w.cp, clock, c, outputs, e), GiveBack(w.p, clock, x, e))
  {
    var first := x.word[0];
    RunFallback(w.cp, clock, c, x.word, e);
    SimPass(w, clock, c, Reset(x), first);
    if e.Some? {
      SimPass(w, clock, Deliver(w.cp, clock, c, first), Pass(w.p, clock, Reset(x), first), e.value);
    }
  }

  /** Nothing to give back: only the current event, if any, is translated. */
  lemma SimDrop(w: World, clock: Clock, c: Core, x: Matcher, t: Transition, e: Option<InputEvent>, c1: Core)
    requires Sim(w, c, x) && !c.paused && MatcherOk(w.p, x) && t == w.cp.states[c.layer][c.state].fallback
    requires c1 == c.(state := HOME_STATE_IDX, timer := None) && OutputsBelow(t.outputs, |w.cp.states|)
    requires x.waited || Reading(w.p, x).None? || Reading(w.p, x).value.behavior != SequenceBehavior.Default
    ensures NoReplay(t.outputs) && CoreOk(w.cp, c1)
    ensures Sim(w, RunOutputs(w.cp, clock, c1, t.outputs, e), Abandon(w.p, clock, x, e))
  {
    FallbackByScan(w, c, x);
    SimReset(w, c, x);
    if !x.waited {
      assert t.outputs == [BasicTranslation(None)];
      RunTranslation(w.cp, clock, c1, None, e);
      var x1 := Note(Reset(x), Dropped(HeldWord(w.p, x)));
      assert Sim(w, c1, x1);
      if e.Some? {
        SimPass(w, clock, c1, x1, e.value);
      }
    }
  }

  /** Giving up on the pending word. */
  lemma {:induction false} SimAbandon(w: World, clock: Clock, c: Core, x: Matcher, t: Transition, e: Option<InputEvent>)
    requires Sim(w, c, x) && !c.paused && MatcherOk(w.p, x) && t == w.cp.states[c.layer][c.state].fallback
    requires OutputsBelow(t.outputs, |w.cp.states|) && t.timerMs.None? && t.newState == HOME_STATE_IDX
    ensures |w.cp.states[c.layer]| > 0
    ensures Sim(w, Apply(w.cp, clock, c, t, e), Abandon(w.p, clock, x, e))
    decreases |x.word|, 1, 0
  {
    var c1 := Enter(clock, c, t);
    HomeLabel(w, c.layer);
    if !x.waited && Reading(w.p, x).Some? && Reading(w.p, x).value.behavior == SequenceBehavior.Default {
      SimReplay(w, clock, c, x, t, e, c1);
    } else {
      SimDrop(w, clock, c, x, t, e, c1);
      NoReplayNoRedo(t.outputs, e);
    }
  }

  /** A Default word is given back and replayed. */
  lemma {:induction false} SimReplay(w: World, clock: Clock, c: Core, x: Matcher, t: Transition, e: Option<InputEvent>,
                                     c1: Core)
    requires Sim(w, c, x) && !c.paused && MatcherOk(w.p, x) && t == w.cp.states[c.layer][c.state].fallback
    requires OutputsBelow(t.outputs, |w.cp.states|) && t.timerMs.None? && t.newState == HOME_STATE_IDX
    requires |w.cp.states[c.layer]| > 0 && c1 == Enter(clock, c, t)
    requires !x.waited && Reading(w.p, x).Some? && Reading(w.p, x).value.behavior == SequenceBehavior.Default
    ensures Sim(w, Apply(w.cp, clock, c, t, e), Abandon(w.p, clock, x, e))
    decreases |x.word|, 0, 0
  {
    FallbackByScan(w, c, x);
    SimReset(w, c, x);
    var c2 := RunOutputs(w.cp, clock, c1, t.outputs, e);
    ApplyShape(w.cp, clock, c, t, e, c2);
    FallbackEvents(SequenceBehavior.Default, x.word, e);
    SimGiveBack(w, clock, c1, x, e);
    var x2 := GiveBack(w.p, clock, x, e);
    if x.word[1..] != [] {
      SimAll(w, clock, c2, x2, x.word[1..]);
    }
    assert Abandon(w.p, clock, x, e) == MatchAll(w.p, clock, x2, x.word[1..]);
  }

  lemma {:induction false} SimEvent(w: World, clock: Clock, c: Core, x: Matcher, e: InputEvent)
    requires Sim(w, c, x) && MatcherOk(w.p, x)
    ensures Sim(w, Process(w.cp, clock, c, e), MatchEvent(w.p, clock, x, e))
    decreases |x.word|, 2, 0
  {
    if !c.paused {
      ChosenByScan(w, c, x, e);
      var found := if Blocked(w.p, x) then None else Scan(Rules(w.p, x), x.word + [e]);
      if found.Some? {
        SimAdvance(w, clock, c, x, found.value, e);
      } else {
        var c1 := c.(calls := c.calls + 1);
        ProcessIsApply(w.cp, clock, c, e);
        FallbackByScan(w, c, x);
        SimAbandon(w, clock, c1, x, Chosen(w.cp, c, e), Some(e));
      }
    }
  }

  lemma {:induction false} SimAll(w: World, clock: Clock, c: Core, x: Matcher, events: seq<InputEvent>)
    requires Sim(w, c, x) && !c.paused && MatcherOk(w.p, x) && Holding(w.cp, c)
    ensures Sim(w, ProcessAll(w.cp, clock, c, events), MatchAll(w.p, clock, x, events))
    decreases |x.word| + |events|, 0, |events|
  {
    if events != [] {
      SimEvent(w, clock, c, x, events[0]);
      SimAll(w, clock, Process(w.cp, clock, c, events[0]), MatchEvent(w.p, clock, x, events[0]), events[1..]);
    }
  }

  // ---------- whole runs ----------

  /** The timer transition of the current state, read off the pending word. */
  lemma TimerByScan(w: World, c: Core, x: Matcher, t: Transition) returns (m: nat)
    requires Sim(w, c, x) && w.cp.states[c.layer][c.state].timer == Some(t)
    ensures MatcherOk(w.p, x) && m < |Rules(w.p, x)| && Reading(w.p, x) == Some(Rules(w.p, x)[m]) && !x.waited
    ensures var s := Rules(w.p, x)[m];
      var timer := TimerAfter(s, |x.word|);
      && timer.Some?
      && (timer.value.MaximumWait? ==> t == w.cp.states[c.layer][c.state].fallback)
      && (timer.value.MinimumWait? && |x.word| == |s.nodes| ==> t == CompleteTimer(s))
      && (timer.value.MinimumWait? && |x.word| != |s.nodes| ==>
        t == Transition(None, [], t.newState) && t.newState < |w.labellings[c.layer].labels| &&
        w.labellings[c.layer].labels[t.newState] == Label(x.word, true))
  {
    var b, l, seqs := LayerFacts(w, c, x);
    assert c.state > 0;
    m := StateByScan(b, l, seqs, c.state);
    DescribedTimer(b.states[c.state], b.metadata[c.state], seqs[m], x.word, l.labels, t);
  }

  lemma DescribedTimer(state: State, metadata: StateMetadata, s: Sequence, word: seq<InputEvent>, labels: seq<Label>,
                       t: Transition)
    requires 0 < |word| <= |s.nodes| && word == Word(s)[..|word|] && DescribesEntered(state, metadata, s, |word|, labels)
    requires state.timer == Some(t)
    ensures var timer := TimerAfter(s, |word|);
      && timer.Some?
      && (timer.value.MaximumWait? ==> t == state.fallback)
      && (timer.value.MinimumWait? && |word| == |s.nodes| ==> t == CompleteTimer(s))
      && (timer.value.MinimumWait? && |word| != |s.nodes| ==>
        t == Transition(None, [], t.newState) && t.newState < |labels| && labels[t.newState] == Label(word, true))
  {
  }

  /** A minimum wait has run out. */
  lemma SimWaited(w: World, clock: Clock, c: Core, x: Matcher, t: Transition, s: Sequence)
    requires Sim(w, c, x) && !c.paused && t.newState < |w.cp.states[c.layer]| && SwapsBelow(s.binds, |w.p.layers|)
    requires if |x.word| == |s.nodes| then t == CompleteTimer(s)
      else t == Transition(None, [], t.newState) && w.labellings[c.layer].labels[t.newState] == Label(x.word, true)
    ensures OutputsBelow(t.outputs, |w.cp.states|) && NoReplay(t.outputs)
    ensures Sim(w, Apply(w.cp, clock, c, t, None),
      if |x.word| == |s.nodes| then Fire(clock, x, s, Unreleased(s, x.word)) else x.(waited := true, timer := None))
  {
    var c1 := Enter(clock, c, t);
    if |x.word| == |s.nodes| {
      SimReset(w, c, x);
      SimFire(w, clock, c1, Reset(x), s, Unreleased(s, x.word), None);
      assert Fire(clock, x, s, Unreleased(s, x.word)) == Fire(clock, Reset(x), s, Unreleased(s, x.word));
    } else {
      SimMove(w, c, x, t.newState, None, c.out, x.word, true);
    }
  }

  /** The timer has run out: the transition fired is the one the scan calls for. */
  lemma SimExpire(w: World, clock: Clock, c: Core, x: Matcher, t: Transition)
    requires Sim(w, c, x) && !c.paused && MatcherOk(w.p, x)
    requires w.cp.states[c.layer][c.state].timer == Some(t)
    requires t.newState < |w.cp.states[c.layer]| && OutputsBelow(t.outputs, |w.cp.states|) && t.timerMs.None?
    requires NoReplay(t.outputs) || t.newState == HOME_STATE_IDX
    ensures Sim(w, Apply(w.cp, clock, c, t, None), Expire(w.p, clock, x))
  {
    var m := TimerByScan(w, c, x, t);
    var s := Rules(w.p, x)[m];
    if TimerAfter(s, |x.word|).value.MaximumWait? {
      FallbackByScan(w, c, x);
      SimAbandon(w, clock, c, x, t, None);
    } else {
      RuleBelow(w.p, x, m);
      SimWaited(w, clock, c, x, t, s);
    }
  }

  lemma SimTick(w: World, clock: Clock, c: Core, x: Matcher)
    requires Sim(w, c, x) && MatcherOk(w.p, x)
    ensures Sim(w, Tick(w.cp, clock, c), MatchTick(w.p, clock, x))
  {
    if c.timer.Some? {
      var out := c.out.(ticks := c.out.ticks + 1);
      TickApplies(w.cp, clock, c);
      SimMove(w, c, x, c.state, c.timer, out, x.word, x.waited);
      if c.timer.value <= clock(c.out.ticks) {
        SimExpire(w, clock, c.(out := out), x.(out := out), w.cp.states[c.layer][c.state].timer.value);
      }
    }
  }

  lemma SimIterate(w: World, clock: Clock, c: Core, x: Matcher, key: Option<InputEvent>)
    requires Sim(w, c, x) && MatcherOk(w.p, x)
    ensures Sim(w, IterateCore(w.cp, clock, c, key), MatchIterate(w.p, clock, x, key))
  {
    var c1, x1 := Tick(w.cp, clock, c), MatchTick(w.p, clock, x);
    SimTick(w, clock, c, x);
    var c2 := if key.Some? then Process(w.cp, clock, c1, key.value) else c1;
    var x2 := if key.Some? then MatchEvent(w.p, clock, x1, key.value) else x1;
    if key.Some? {
      SimEvent(w, clock, c1, x1, key.value);
    }
    assert c2.paused ==> Flush(clock, c2.out).queue == [];
  }

  /** A sound profile compiles exactly when no basic trigger comes twice and no two sequences clash. */
  lemma AcceptableCompiles(p: Profile)
    requires Sound(p)
    ensures CompileProfile(p).Some? <==> Acceptable(p)
  {
    ProfileRejected(p);
    forall i | 0 <= i < |p.layers|
      ensures StateMachine.Compile(ParseLayer(p.layers[i])).Some? <==>
        ClashFree(ParseLayer(p.layers[i]), |ParseLayer(p.layers[i])|)
    {
      var _ := CompiledRepresents(ParseLayer(p.layers[i]), |ParseLayer(p.layers[i])|);
    }
  }

  lemma BuildLayer(p: Profile, cp: Compiled, i: nat) returns (b: Build, l: Labelling)
    requires Sound(p) && CompileProfile(p) == Some(cp) && i < |p.layers|
    ensures i < |cp.states| && Finished(b, l, ParseLayer(p.layers[i])) && b.states == cp.states[i]
  {
    assert CompileLayer(p.layers[i]).Some?;
    b, l := CompileFinished(ParseLayer(p.layers[i]));
  }

  ghost predicate BuiltLayer(p: Profile, cp: Compiled, builds: seq<Build>, labellings: seq<Labelling>, i: nat)
    requires NormalProfile(p) && i < |p.layers| && i < |builds| && i < |labellings| && i < |cp.states|
  {
    Finished(builds[i], labellings[i], ParseLayer(p.layers[i])) && builds[i].states == cp.states[i]
  }

  lemma {:induction false} BuildLayers(p: Profile, cp: Compiled, n: nat)
      returns (builds: seq<Build>, labellings: seq<Labelling>)
    requires Sound(p) && CompileProfile(p) == Some(cp) && n <= |p.layers| == |cp.states|
    ensures |builds| == |labellings| == n
    ensures forall i: nat {:trigger BuiltLayer(p, cp, builds, labellings, i)} :: i < n ==> BuiltLayer(p, cp, builds, labellings, i)
    decreases n
  {
    if n == 0 {
      builds, labellings := [], [];
    } else {
      var bs, ls := BuildLayers(p, cp, n - 1);
      var b, l := BuildLayer(p, cp, n - 1);
      builds, labellings := bs + [b], ls + [l];
      forall i: nat | i < n
        ensures BuiltLayer(p, cp, builds, labellings, i)
      {
        assert i < n - 1 ==> BuiltLayer(p, cp, bs, ls, i);
      }
    }
  }

  lemma BuildWorld(p: Profile) returns (w: World)
    requires Sound(p) && CompileProfile(p).Some?
    ensures w.p == p && WorldOk(w)
  {
    var cp := CompileProfile(p).value;
    var builds, labellings := BuildLayers(p, cp, |p.layers|);
    SoundAdmissible(p);
    w := World(p, cp, builds, labellings);
    forall i | 0 <= i < |p.layers|
      ensures LayerOk(w, i)
    {
      assert BuiltLayer(p, cp, builds, labellings, i);
    }
  }

  /** The mapper and the matcher run the same profile and stand at matching points. */
  ghost predicate Matched(w: World, s: Sys, m: MSys) {
    && s.profile == m.profile == w.p && s.cp == w.cp && SysOk(s) && MSysOk(m)
    && Sim(w, s.core, m.matcher)
  }

  predicate SoundOp(op: Op) {
    op.ChangeProfile? ==> Sound(op.profile)
  }

  lemma SimSetProfile(w: World, clock: Clock, s: Sys, m: MSys, p: Profile) returns (w': World)
    requires Matched(w, s, m) && Sound(p) && OpOk(ChangeProfile(p))
    ensures Matched(w', Step(clock, s, ChangeProfile(p)), MatchStep(clock, m, ChangeProfile(p)))
  {
    AcceptableCompiles(p);
    w' := w;
    if CompileProfile(p).Some? {
      w' := BuildWorld(p);
      HomeLabel(w', p.defaultLayer);
    }
  }

  lemma SimChangeLayer(w: World, clock: Clock, s: Sys, m: MSys, layer: nat)
    requires Matched(w, s, m)
    ensures Matched(w, Step(clock, s, ChangeLayer(layer)), MatchStep(clock, m, ChangeLayer(layer)))
  {
    if layer < |w.p.layers| {
      var leave := Note(m.matcher, Dropped(HeldWord(m.profile, m.matcher)));
      assert Sim(w, s.core, leave);
      SimSwap(w, s.core, leave, Some(layer));
    }
  }

  lemma SimTurn(w: World, clock: Clock, s: Sys, m: MSys, key: Option<InputEvent>)
    requires Matched(w, s, m)
    ensures Matched(w, Step(clock, s, Iterate(key)), MatchStep(clock, m, Iterate(key)))
  {
    SimIterate(w, clock, s.core, m.matcher, key);
  }

  lemma SimPausing(w: World, clock: Clock, s: Sys, m: MSys, op: Op)
    requires Matched(w, s, m) && (op.Pause? || op.Resume?)
    ensures Matched(w, Step(clock, s, op), MatchStep(clock, m, op))
  {
  }

  lemma SimStep(w: World, clock: Clock, s: Sys, m: MSys, op: Op) returns (w': World)
    requires Matched(w, s, m) && SoundOp(op) && OpOk(op)
    ensures Matched(w', Step(clock, s, op), MatchStep(clock, m, op))
  {
    w' := w;
    match op
    case Iterate(key) => SimTurn(w, clock, s, m, key);
    case ChangeLayer(layer) => SimChangeLayer(w, clock, s, m, layer);
    case ChangeProfile(p) => w' := SimSetProfile(w, clock, s, m, p);
    case Pause => SimPausing(w, clock, s, m, Pause);
    case Resume => SimPausing(w, clock, s, m, Resume);
  }

  lemma SoundOpOk(op: Op)
    requires SoundOp(op)
    ensures OpOk(op) && (op.ChangeProfile? ==> WellFormed(op.profile))
  {
    if op.ChangeProfile? {
      SoundAdmissible(op.profile);
    }
  }

  lemma {:induction false} SimRun(w: World, clock: Clock, s: Sys, m: MSys, ops: seq<Op>) returns (w': World)
    requires Matched(w, s, m) && forall i :: 0 <= i < |ops| ==> SoundOp(ops[i])
    ensures forall i :: 0 <= i < |ops| ==> OpOk(ops[i]) && (ops[i].ChangeProfile? ==> WellFormed(ops[i].profile))
    ensures Matched(w', Run(clock, s, ops), MatchRun(clock, m, ops))
    decreases |ops|
  {
    forall i | 0 <= i < |ops|
      ensures OpOk(ops[i]) && (ops[i].ChangeProfile? ==> WellFormed(ops[i].profile))
    {
      SoundOpOk(ops[i]);
    }
    w' := w;
    if ops != [] {
      var before, last := ops[..|ops| - 1], ops[|ops| - 1];
      var w1 := SimRun(w, clock, s, m, before);
      w' := SimStep(w1, clock, Run(clock, s, before), MatchRun(clock, m, before), last);
    }
  }

  lemma SimStart(p: Profile) returns (w: World)
    requires Sound(p) && CompileProfile(p).Some?
    ensures Matched(w, StartMapper(p), StartMatcher(p))
  {
    w := BuildWorld(p);
    SoundAdmissible(p);
    HomeLabel(w, p.defaultLayer);
  }

  /** From a fresh start, whatever keys, timeouts, layer changes, profile swaps, pauses and resumes follow, the mapper
      with its automata and the matcher with its lists queue, send, log and drop the same, and agree on layer and timer. */
  lemma MapperRefinesMatcher(p: Profile, clock: Clock, ops: seq<Op>)
    requires Sound(p) && CompileProfile(p).Some? && forall i :: 0 <= i < |ops| ==> SoundOp(ops[i])
    ensures SysOk(StartMapper(p)) && MSysOk(StartMatcher(p))
    ensures forall i :: 0 <= i < |ops| ==> OpOk(ops[i]) && (ops[i].ChangeProfile? ==> WellFormed(ops[i].profile))
    ensures var s := Run(clock, StartMapper(p), ops);
      var m := MatchRun(clock, StartMatcher(p), ops);
      && s.core.out == m.matcher.out && s.core.layer == m.matcher.layer && s.core.timer == m.matcher.timer
      && s.core.paused == m.matcher.paused && s.profile == m.profile
      && (s.core.state == HOME_STATE_IDX <==> m.matcher.word == [])
  {
    var w := SimStart(p);
    var w' := SimRun(w, clock, StartMapper(p), StartMatcher(p), ops);
    var _, _, _ := LayerFacts(w', Run(clock, StartMapper(p), ops).core, MatchRun(clock, StartMatcher(p), ops).matcher);
  }
}
