/** The compiler: a layer's trigger sequences become one trie-shaped automaton. */
module StateMachine {
  import opened Options
  import opened Profiles
  import opened Automata

  /** Every transition stays inside the state list, and fallbacks lead home. */
  predicate InRange(states: seq<State>) {
    |states| > 0 && forall i :: 0 <= i < |states| ==> LeadsInto(states[i], |states|)
  }

  predicate LeadsInto(state: State, size: nat) {
    && state.fallback.newState == HOME_STATE_IDX
    && (state.timer.Some? ==> state.timer.value.newState < size)
    && forall e :: e in state.edges ==> state.edges[e].newState < size
  }

  predicate ValidBuild(b: Build) {
    InRange(b.states) && |b.metadata| == |b.states|
  }

  function SetTimer(b: Build, i: nat, t: Transition): Build
    requires i < |b.states|
  {
    b.(states := b.states[i := b.states[i].(timer := Some(t))])
  }

  function SetEdge(b: Build, i: nat, event: InputEvent, t: Transition): Build
    requires i < |b.states|
  {
    b.(states := b.states[i := b.states[i].(edges := b.states[i].edges[event := t])])
  }

  function Push(b: Build, state: State, metadata: StateMetadata): Build {
    Build(b.states + [state], b.metadata + [metadata])
  }

  /** Attach node `k`'s timer to state `next`; the result is the new build and the state the sequence goes on from. */
  function AttachTimer(b: Build, s: Sequence, k: nat, next: nat): (r: (Build, nat))
    requires ValidBuild(b) && k < |s.nodes| && next < |b.states|
    ensures ValidBuild(r.0) && r.1 < |r.0.states|
  {
    match s.nodes[k].timer
    case None => (b, next)
    case Some(MaximumWait(_)) =>
      (if b.states[next].timer.Some? then b else SetTimer(b, next, b.states[next].fallback), next)
    case Some(MinimumWait(_)) =>
      if b.states[next].timer.Some? then (b, b.states[next].timer.value.newState)
      else if k + 1 == |s.nodes| then (SetTimer(b, next, CompleteTimer(s)), next)
      else
        var pushed := Push(b, State(map[], SILENT_FALLBACK, None), StateMetadata(None, s.behavior));
        (SetTimer(pushed, next, Transition(None, [], |b.states|)), |b.states|)
  }

  /** The state a non-final trigger creates. */
  function FreshState(s: Sequence, k: nat): State
    requires k < |s.nodes|
  {
    State(map[], Fallback(s.behavior, Events(s.nodes)[..k + 1]), None)
  }

  /** Insert node `k` of `s` from state `cur`; None when the sequence clashes with those already there. */
  function InsertNode(b: Build, s: Sequence, k: nat, cur: nat): (r: Option<(Build, nat)>)
    requires ValidBuild(b) && k < |s.nodes| && cur < |b.states|
    ensures r.Some? ==> ValidBuild(r.value.0) && r.value.1 < |r.value.0.states|
  {
    var node := s.nodes[k];
    var isLast := k + 1 == |s.nodes| && node.timer.None?;
    if node.event in b.states[cur].edges then
      var next := b.states[cur].edges[node.event].newState;
      if isLast then None
      else if b.metadata[next].behavior != s.behavior then None
      else if b.metadata[next].timer.Some? && node.timer.Some? && b.metadata[next].timer != node.timer then None
      else Some(AttachTimer(b, s, k, next))
    else if isLast then
      Some((SetEdge(b, cur, node.event, CompleteEdge(s, node.event)), HOME_STATE_IDX))
    else
      var pushed := Push(b, FreshState(s, k), StateMetadata(node.timer, s.behavior));
      var edge := Transition(Ms(node.timer), Released(s.behavior, node.event), |b.states|);
      Some(AttachTimer(SetEdge(pushed, cur, node.event, edge), s, k, |b.states|))
  }

  /** Insert the first `k` nodes of `s`. */
  function InsertPrefix(b: Build, s: Sequence, k: nat): (r: Option<(Build, nat)>)
    requires ValidBuild(b) && k <= |s.nodes|
    ensures r.Some? ==> ValidBuild(r.value.0) && r.value.1 < |r.value.0.states|
  {
    if k == 0 then Some((b, HOME_STATE_IDX))
    else
      match InsertPrefix(b, s, k - 1)
      case None => None
      case Some((b', cur)) => InsertNode(b', s, k - 1, cur)
  }

  /** Insert the first `n` sequences. */
  function CompilePrefix(seqs: seq<Sequence>, n: nat): (r: Option<Build>)
    requires n <= |seqs|
    ensures r.Some? ==> ValidBuild(r.value)
  {
    if n == 0 then Some(HOME_BUILD)
    else
      match CompilePrefix(seqs, n - 1)
      case None => None
      case Some(b) =>
        match InsertPrefix(b, seqs[n - 1], |seqs[n - 1].nodes|)
        case None => None
        case Some((b', _)) => Some(b')
  }

  function Compile(seqs: seq<Sequence>): (r: Option<seq<State>>)
    ensures r.Some? ==> InRange(r.value)
  {
    match CompilePrefix(seqs, |seqs|)
    case None => None
    case Some(b) => Some(b.states)
  }

  lemma NextFails(s: Sequence, b: Build, k: nat)
    requires ValidBuild(b) && k < |s.nodes| && InsertPrefix(b, s, k).None?
    ensures InsertPrefix(b, s, k + 1).None?
  {
  }

  /** A clash stays a clash. */
  lemma {:induction false} PrefixFails(s: Sequence, b: Build, k: nat, k': nat)
    requires ValidBuild(b) && k <= k' <= |s.nodes| && InsertPrefix(b, s, k).None?
    ensures InsertPrefix(b, s, k').None?
    decreases k' - k
  {
    if k < k' {
      NextFails(s, b, k);
      PrefixFails(s, b, k + 1, k');
    }
  }

  /** The last of `k` insertion steps. */
  lemma PrefixNext(b: Build, s: Sequence, k: nat, b': Build, cur': nat) returns (b1: Build, cur: nat)
    requires ValidBuild(b) && 0 < k <= |s.nodes| && InsertPrefix(b, s, k) == Some((b', cur'))
    ensures ValidBuild(b1) && cur < |b1.states|
    ensures InsertPrefix(b, s, k - 1) == Some((b1, cur)) && InsertNode(b1, s, k - 1, cur) == Some((b', cur'))
  {
    b1, cur := InsertPrefix(b, s, k - 1).value.0, InsertPrefix(b, s, k - 1).value.1;
  }

  /** One insertion step more. */
  lemma PrefixStep(b: Build, s: Sequence, k: nat, b1: Build, cur: nat)
    requires ValidBuild(b) && k < |s.nodes| && InsertPrefix(b, s, k) == Some((b1, cur))
    ensures ValidBuild(b1) && cur < |b1.states| && InsertPrefix(b, s, k + 1) == InsertNode(b1, s, k, cur)
  {
  }

  lemma {:induction false} CompileFails(seqs: seq<Sequence>, n: nat, n': nat)
    requires n <= n' <= |seqs| && CompilePrefix(seqs, n).None?
    ensures CompilePrefix(seqs, n').None?
    decreases n'
  {
    if n < n' {
      CompileFails(seqs, n, n' - 1);
    }
  }

  /** Node `k` of `s` can be inserted from state `cur`. */
  predicate GoesIn(b: Build, s: Sequence, k: nat, cur: nat) {
    ValidBuild(b) && k < |s.nodes| && cur < |b.states| && InsertNode(b, s, k, cur).Some?
  }

  /** No step of `s` breaks `inv`. */
  ghost predicate Keeps(s: Sequence, inv: Build -> bool) {
    forall b: Build, k: nat, cur: nat :: GoesIn(b, s, k, cur) && inv(b) ==> inv(InsertNode(b, s, k, cur).value.0)
  }

  lemma {:induction false} PrefixKeeps(b: Build, s: Sequence, k: nat, inv: Build -> bool)
    requires ValidBuild(b) && k <= |s.nodes| && inv(b) && Keeps(s, inv) && InsertPrefix(b, s, k).Some?
    ensures inv(InsertPrefix(b, s, k).value.0)
    decreases k
  {
    if k > 0 {
      PrefixKeeps(b, s, k - 1, inv);
      var (b1, cur) := InsertPrefix(b, s, k - 1).value;
      assert GoesIn(b1, s, k - 1, cur);
    }
  }

  /** What holds at the start and survives every step holds of every build. */
  lemma {:induction false} CompileKeeps(seqs: seq<Sequence>, n: nat, inv: Build -> bool)
    requires n <= |seqs| && CompilePrefix(seqs, n).Some? && inv(HOME_BUILD)
    requires forall m :: 0 <= m < n ==> Keeps(seqs[m], inv)
    ensures inv(CompilePrefix(seqs, n).value)
    decreases n
  {
    if n > 0 {
      CompileKeeps(seqs, n - 1, inv);
      PrefixKeeps(CompilePrefix(seqs, n - 1).value, seqs[n - 1], |seqs[n - 1].nodes|, inv);
    }
  }

  /** The input events among `triggers`, in order. */
  function InputsOf(triggers: seq<AdvancedTrigger>): seq<InputEvent> {
    if triggers == [] then []
    else
      var last := |triggers| - 1;
      InputsOf(triggers[..last]) +
      (if triggers[last].IsTimer() then [] else [BasicTriggerToInput(triggers[last])])
  }

  lemma InputsOfNext(triggers: seq<AdvancedTrigger>, i: nat)
    requires i < |triggers|
    ensures InputsOf(triggers[..i + 1]) ==
            InputsOf(triggers[..i]) + (if triggers[i].IsTimer() then [] else [BasicTriggerToInput(triggers[i])])
  {
    assert triggers[..i + 1][..i] == triggers[..i];
  }

  /** Trigger index `i` is where node `k` starts. */
  ghost predicate Aligned(triggers: seq<AdvancedTrigger>, i: nat, k: nat)
    requires NormalForm(triggers)
  {
    && k <= |Nodes(triggers)| && i <= |triggers|
    && NormalForm(triggers[i..])
    && Nodes(triggers[i..]) == Nodes(triggers)[k..]
    && InputsOf(triggers[..i]) == Events(Nodes(triggers))[..k]
  }

  /** One node starts at `i`, and the next one where it ends. */
  lemma AlignedStep(triggers: seq<AdvancedTrigger>, i: nat, k: nat)
    requires NormalForm(triggers) && Aligned(triggers, i, k) && i < |triggers|
    ensures k < |Nodes(triggers)| && !triggers[i].IsTimer()
    ensures var node := Nodes(triggers)[k];
      var timed := i + 1 < |triggers| && triggers[i + 1].IsTimer();
      var next := if timed then i + 2 else i + 1;
      && node == Node(BasicTriggerToInput(triggers[i]), if timed then Some(triggers[i + 1]) else None)
      && Aligned(triggers, next, k + 1)
      && InputsOf(triggers[..next]) == Events(Nodes(triggers))[..k + 1]
      && (k + 1 == |Nodes(triggers)| <==> next == |triggers|)
  {
    var suffix, nodes := triggers[i..], Nodes(triggers);
    var timed := i + 1 < |triggers| && triggers[i + 1].IsTimer();
    assert !suffix[0].IsTimer();
    assert timed ==> triggers[i + 1] == suffix[1];
    var next := if timed then i + 2 else i + 1;
    assert suffix[next - i..] == triggers[next..];
    assert NormalForm(triggers[next..]) by {
      forall j | 0 <= j < |triggers| - next && triggers[next..][j].IsTimer()
        ensures j > 0 && !triggers[next..][j - 1].IsTimer()
      {
        assert triggers[next + j].IsTimer();
      }
    }
    assert nodes[k..][0] == nodes[k] && nodes[k..][1..] == nodes[k + 1..];
    InputsOfNext(triggers, i);
    if timed {
      InputsOfNext(triggers, i + 1);
    }
    assert Events(nodes)[..k + 1] == Events(nodes)[..k] + [nodes[k].event];
  }

  /** The copying pass: no timer is ever merged, so every trigger is copied as it stands. */
  method NormalizeSequences(sequences: seq<SequenceTrigger>) returns (r: seq<SequenceTrigger>)
    ensures r == sequences
  {
    r := [];
    for n := 0 to |sequences|
      invariant r == sequences[..n]
    {
      var triggers: seq<AdvancedTrigger> := [];
      for i := 0 to |sequences[n].sequence|
        invariant triggers == sequences[n].sequence[..i]
      {
        triggers := triggers + [sequences[n].sequence[i]];
      }
      assert triggers == sequences[n].sequence;
      r := r + [SequenceTrigger(sequences[n].behavior, triggers, sequences[n].binds)];
    }
  }

  /** Fallback outputs of a new state: for Default, the input events among triggers 0 to `i` are replayed. */
  method SynthesizeFallback(sequence: seq<AdvancedTrigger>, behavior: SequenceBehavior, i: nat)
      returns (fallback: Transition)
    requires NormalForm(sequence) && i < |sequence|
    ensures fallback == Fallback(behavior, InputsOf(sequence[..i + 1]))
  {
    var outputs: seq<StateMachineOutput> := [];
    if behavior == SequenceBehavior.Default {
      for j := 0 to i + 1
        invariant outputs == Replay(InputsOf(sequence[..j]))
        invariant j > 0 ==> InputsOf(sequence[..j]) != []
      {
        InputsOfNext(sequence, j);
        var input := TriggerToInput(sequence[j]);
        if input.Some? {
          ghost var word := InputsOf(sequence[..j]);
          if j == 0 {
            outputs := outputs + [BasicTranslation(input)];
          } else {
            assert (word + [input.value])[1..] == word[1..] + [input.value];
            outputs := outputs + [ProcessInput(input)];
          }
        }
      }
    }
    outputs := outputs + [BasicTranslation(None)];
    fallback := Transition(None, outputs, HOME_STATE_IDX);
  }

  /** Hang the timer that follows a trigger on the state the trigger leads to. */
  method HangTimer(states: seq<State>, metadata: seq<StateMetadata>, trigger: SequenceTrigger, timer: Option<Timer>,
                   isSecondToLast: bool, next: nat, ghost k: nat)
      returns (states': seq<State>, metadata': seq<StateMetadata>, final: nat)
    requires NormalForm(trigger.sequence) && ValidBuild(Build(states, metadata)) && next < |states|
    requires var nodes := Nodes(trigger.sequence);
      k < |nodes| && nodes[k].timer == timer && (timer.Some? ==> (isSecondToLast <==> k + 1 == |nodes|))
    ensures (Build(states', metadata'), final) == AttachTimer(Build(states, metadata), Parse(trigger), k, next)
  {
    states', metadata', final := states, metadata, next;
    if timer.Some? {
      match timer.value {
        case MaximumWait(_) =>
          if states[next].timer.None? {
            states' := states[next := states[next].(timer := Some(states[next].fallback))];
          }
        case MinimumWait(_) =>
          if states[next].timer.Some? {
            final := states[next].timer.value.newState;
          } else if isSecondToLast {
            states' := states[next := states[next].(timer := Some(Transition(None, EmitAll(trigger.binds), HOME_STATE_IDX)))];
          } else {
            final := |states|;
            states' := states[next := states[next].(timer := Some(Transition(None, [], final)))];
            states' := states' + [State(map[], Transition(None, [], HOME_STATE_IDX), None)];
            metadata' := metadata + [StateMetadata(None, trigger.behavior)];
            assert states' == (states + [states'[final]])[next := states'[next]];
          }
      }
    }
  }

  /** A new state for the event of node `k`, with its fallback, and the edge to it; `last` is the index of the node's last trigger. */
  method PushState(states: seq<State>, metadata: seq<StateMetadata>, trigger: SequenceTrigger, last: nat, cur: nat,
                   event: InputEvent, timer: Option<Timer>, ghost k: nat)
      returns (states': seq<State>, metadata': seq<StateMetadata>)
    requires NormalForm(trigger.sequence) && ValidBuild(Build(states, metadata)) && cur < |states|
    requires last < |trigger.sequence| && k < |Nodes(trigger.sequence)|
    requires InputsOf(trigger.sequence[..last + 1]) == Events(Nodes(trigger.sequence))[..k + 1]
    ensures Build(states', metadata') ==
      SetEdge(Push(Build(states, metadata), FreshState(Parse(trigger), k), StateMetadata(timer, trigger.behavior)), cur, event,
              Transition(Ms(timer), Released(trigger.behavior, event), |states|))
    ensures ValidBuild(Build(states', metadata')) && |states'| == |states| + 1
  {
    var outputs := if trigger.behavior == SequenceBehavior.Release then [BasicTranslation(Some(event))] else [];
    var fallback := SynthesizeFallback(trigger.sequence, trigger.behavior, last);
    var newState := State(map[], fallback, None);
    var edge := Transition(Ms(timer), outputs, |states|);
    states' := states + [newState];
    metadata' := metadata + [StateMetadata(timer, trigger.behavior)];
    states' := states'[cur := states'[cur].(edges := states'[cur].edges[event := edge])];
    assert newState == FreshState(Parse(trigger), k);
  }

  /** One pass of the trigger loop: trigger `i` and the timer after it. */
  method InsertTrigger(states: seq<State>, metadata: seq<StateMetadata>, trigger: SequenceTrigger, i: nat, cur: nat,
                       ghost k: nat)
      returns (ok: bool, states': seq<State>, metadata': seq<StateMetadata>, i': nat, cur': nat)
    requires NormalForm(trigger.sequence) && Aligned(trigger.sequence, i, k) && i < |trigger.sequence|
    requires ValidBuild(Build(states, metadata)) && cur < |states|
    ensures i < i' && Aligned(trigger.sequence, i', k + 1) && k < |Nodes(trigger.sequence)|
    ensures (if ok then Some((Build(states', metadata'), cur')) else None) ==
            InsertNode(Build(states, metadata), Parse(trigger), k, cur)
  {
    AlignedStep(trigger.sequence, i, k);
    var isLast := i + 1 == |trigger.sequence|;
    var isSecondToLast := i + 2 == |trigger.sequence|;
    var event := BasicTriggerToInput(trigger.sequence[i]);
    ok, states', metadata', i', cur' := true, states, metadata, i + 1, HOME_STATE_IDX;

    var timer: Option<Timer> := None;
    if !isLast && trigger.sequence[i + 1].IsTimer() {
      timer := Some(trigger.sequence[i + 1]);
      i' := i + 2;
    }

    if event in states[cur].edges {
      if isLast {
        return false, states, metadata, i', HOME_STATE_IDX;
      }
      var next := states[cur].edges[event].newState;
      if metadata[next].behavior != trigger.behavior {
        return false, states, metadata, i', HOME_STATE_IDX;
      }
      if metadata[next].timer.Some? && timer.Some? && metadata[next].timer != timer {
        return false, states, metadata, i', HOME_STATE_IDX;
      }
      states', metadata', cur' := HangTimer(states, metadata, trigger, timer, isSecondToLast, next, k);
    } else {
      if isLast {
        var released := if trigger.behavior == SequenceBehavior.Release then [BasicTranslation(Some(event))] else [];
        var outputs := released + EmitAll(trigger.binds);
        states' := states[cur := states[cur].(edges := states[cur].edges[event := Transition(None, outputs, HOME_STATE_IDX)])];
      } else {
        states', metadata' := PushState(states, metadata, trigger, i' - 1, cur, event, timer, k);
        states', metadata', cur' := HangTimer(states', metadata', trigger, timer, isSecondToLast, |states|, k);
      }
    }
  }

  /** The trigger loop of one sequence. */
  method InsertSequence(states: seq<State>, metadata: seq<StateMetadata>, trigger: SequenceTrigger)
      returns (ok: bool, states': seq<State>, metadata': seq<StateMetadata>)
    requires NormalForm(trigger.sequence) && ValidBuild(Build(states, metadata))
    ensures var r := InsertPrefix(Build(states, metadata), Parse(trigger), |Nodes(trigger.sequence)|);
      if ok then r.Some? && r.value.0 == Build(states', metadata') else r.None?
  {
    states', metadata' := states, metadata;
    var i, cur := 0, HOME_STATE_IDX;
    ghost var k, b, s := 0, Build(states, metadata), Parse(trigger);
    assert trigger.sequence[0..] == trigger.sequence;
    while i < |trigger.sequence|
      invariant Aligned(trigger.sequence, i, k) && ValidBuild(Build(states', metadata'))
      invariant InsertPrefix(b, s, k) == Some((Build(states', metadata'), cur))
      decreases |trigger.sequence| - i
    {
      ok, states', metadata', i, cur := InsertTrigger(states', metadata', trigger, i, cur, k);
      k := k + 1;
      if !ok {
        PrefixFails(s, b, k, |s.nodes|);
        return;
      }
    }
    assert trigger.sequence[i..] == [];
    ok := true;
  }

  lemma CompileNext(seqs: seq<Sequence>, n: nat, b: Build)
    requires n < |seqs| && CompilePrefix(seqs, n) == Some(b)
    ensures var r := InsertPrefix(b, seqs[n], |seqs[n].nodes|);
      CompilePrefix(seqs, n + 1) == if r.None? then None else Some(r.value.0)
  {
  }

  /** Build the automaton of a layer, sharing prefixes; None on a clash. */
  method GenerateStates(layer: Layer) returns (r: Option<seq<State>>)
    requires NormalLayer(layer)
    ensures r == Compile(ParseLayer(layer))
  {
    var states, metadata := [HOME_STATE], [HOME_METADATA];
    var sequences := NormalizeSequences(layer.sequenceRemappings);
    ghost var seqs := ParseLayer(layer);
    var n := 0;
    while n < |sequences|
      invariant n <= |seqs| == |sequences| && CompilePrefix(seqs, n) == Some(Build(states, metadata))
    {
      CompileNext(seqs, n, Build(states, metadata));
      assert seqs[n] == Parse(sequences[n]);
      var ok;
      ok, states, metadata := InsertSequence(states, metadata, sequences[n]);
      n := n + 1;
      if !ok {
        CompileFails(seqs, n, |seqs|);
        return None;
      }
    }
    return Some(states);
  }
}
