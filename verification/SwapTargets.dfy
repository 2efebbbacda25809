/** Every layer swap the compiler writes into an automaton comes from the sequences' binds. */
module SwapTargets {
  import opened Options
  import opened Profiles
  import opened Automata
  import opened StateMachine
  import opened Outputs
  import opened MapperModel

  lemma NoSwaps(outputs: seq<StateMachineOutput>, layers: nat)
    requires forall i :: 0 <= i < |outputs| ==> !outputs[i].Emit?
    ensures OutputsBelow(outputs, layers)
  {
  }

  lemma FallbackBelow(behavior: SequenceBehavior, word: seq<InputEvent>, layers: nat)
    ensures OutputsBelow(Fallback(behavior, word).outputs, layers)
  {
    NoSwaps(Fallback(behavior, word).outputs, layers);
  }

  lemma CompletionBelow(s: Sequence, e: InputEvent, layers: nat)
    requires SwapsBelow(s.binds, layers)
    ensures OutputsBelow(CompleteEdge(s, e).outputs, layers) && OutputsBelow(CompleteTimer(s).outputs, layers)
  {
  }

  /** All states but number `i` are as before. */
  lemma SetStateBelow(states: seq<State>, i: nat, state: State, layers: nat)
    requires BindsBelow(states, layers) && i < |states| && StateBelow(state, layers)
    ensures BindsBelow(states[i := state], layers)
  {
  }

  lemma AttachTimerBelow(b: Build, s: Sequence, k: nat, next: nat, layers: nat, b': Build)
    requires ValidBuild(b) && k < |s.nodes| && next < |b.states| && BindsBelow(b.states, layers) && SwapsBelow(s.binds, layers)
    requires b' == AttachTimer(b, s, k, next).0
    ensures BindsBelow(b'.states, layers)
  {
    if s.nodes[k].timer.Some? && b.states[next].timer.None? {
      var state, pushed := b.states[next], b.states + [State(map[], SILENT_FALLBACK, None)];
      CompletionBelow(s, s.nodes[k].event, layers);
      NoSwaps([], layers);
      assert BindsBelow(pushed, layers);
      match s.nodes[k].timer.value
      case MaximumWait(_) => SetStateBelow(b.states, next, state.(timer := Some(state.fallback)), layers);
      case MinimumWait(_) =>
        if k + 1 == |s.nodes| {
          SetStateBelow(b.states, next, state.(timer := Some(CompleteTimer(s))), layers);
        } else {
          SetStateBelow(pushed, next, state.(timer := Some(Transition(None, [], |b.states|))), layers);
        }
    }
  }

  lemma SetEdgeBelow(b: Build, i: nat, e: InputEvent, t: Transition, layers: nat)
    requires BindsBelow(b.states, layers) && i < |b.states| && OutputsBelow(t.outputs, layers)
    ensures BindsBelow(SetEdge(b, i, e, t).states, layers)
  {
    SetStateBelow(b.states, i, b.states[i].(edges := b.states[i].edges[e := t]), layers);
  }

  lemma InsertNodeBelow(b: Build, s: Sequence, k: nat, cur: nat, layers: nat, b': Build, cur': nat)
    requires ValidBuild(b) && k < |s.nodes| && cur < |b.states| && BindsBelow(b.states, layers) && SwapsBelow(s.binds, layers)
    requires InsertNode(b, s, k, cur) == Some((b', cur'))
    ensures BindsBelow(b'.states, layers)
  {
    var node, t := s.nodes[k], |b.states|;
    if node.event in b.states[cur].edges {
      AttachTimerBelow(b, s, k, b.states[cur].edges[node.event].newState, layers, b');
    } else if k + 1 == |s.nodes| && node.timer.None? {
      CompletionBelow(s, node.event, layers);
      SetEdgeBelow(b, cur, node.event, CompleteEdge(s, node.event), layers);
    } else {
      var edge := Transition(Ms(node.timer), Released(s.behavior, node.event), t);
      var pushed := Push(b, FreshState(s, k), StateMetadata(node.timer, s.behavior));
      FallbackBelow(s.behavior, Events(s.nodes)[..k + 1], layers);
      NoSwaps(edge.outputs, layers);
      SetEdgeBelow(pushed, cur, node.event, edge, layers);
      AttachTimerBelow(SetEdge(pushed, cur, node.event, edge), s, k, t, layers, b');
    }
  }

  /** Whatever compiles swaps only to layers its sequences name. */
  lemma CompileBelow(seqs: seq<Sequence>, n: nat, layers: nat)
    requires n <= |seqs| && CompilePrefix(seqs, n).Some?
    requires forall m :: 0 <= m < |seqs| ==> SwapsBelow(seqs[m].binds, layers)
    ensures BindsBelow(CompilePrefix(seqs, n).value.states, layers)
  {
    var inv := (b: Build) => BindsBelow(b.states, layers);
    forall m | 0 <= m < n
      ensures Keeps(seqs[m], inv)
    {
      forall b: Build, k: nat, cur: nat | GoesIn(b, seqs[m], k, cur) && inv(b)
        ensures inv(InsertNode(b, seqs[m], k, cur).value.0)
      {
        var (b', cur') := InsertNode(b, seqs[m], k, cur).value;
        InsertNodeBelow(b, seqs[m], k, cur, layers, b', cur');
      }
    }
    CompileKeeps(seqs, n, inv);
  }
}
