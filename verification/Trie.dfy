/** What the states of a compiled layer stand for: the prefixes of its trigger words. */
module Trie {
  import opened Options
  import opened Profiles
  import opened Automata
  import opened StateMachine

  /** A state is known by the events that lead to it and whether a minimum wait after the last one has run out. */
  datatype Label = Label(word: seq<InputEvent>, waited: bool)

  const HOME_LABEL := Label([], false)

  /** For each state its label and the sequence that created it, and the way back from labels to states. */
  datatype Labelling = Labelling(labels: seq<Label>, owner: seq<nat>, index: map<Label, nat>)

  function Word(s: Sequence): seq<InputEvent> {
    Events(s.nodes)
  }

  predicate EndsTimed(s: Sequence) {
    s.nodes != [] && s.nodes[|s.nodes| - 1].timer.Some?
  }

  predicate SharePrefix(a: Sequence, b: Sequence, d: nat) {
    0 < d <= |a.nodes| && d <= |b.nodes| && Word(a)[..d] == Word(b)[..d]
  }

  /** Wherever two trigger words agree so far, so do the timers written after their last common event. */
  predicate TimersAgree(a: Sequence, b: Sequence) {
    forall d: nat :: d <= |a.nodes| && SharePrefix(a, b, d) ==> a.nodes[d - 1].timer == b.nodes[d - 1].timer
  }

  predicate NestedIn(a: Sequence, b: Sequence) {
    a.nodes != [] && Word(a) <= Word(b)
  }

  /** `later` may follow `earlier` in a layer without sliding back onto HOME: their timers agree, a nested word
      ends in an event, and a Default word does not go on from where an earlier word is complete. */
  predicate Compatible(earlier: Sequence, later: Sequence) {
    && TimersAgree(earlier, later)
    && (NestedIn(earlier, later) ==>
      !EndsTimed(earlier) && (Word(earlier) == Word(later) || later.behavior != SequenceBehavior.Default))
    && (NestedIn(later, earlier) ==> !EndsTimed(later))
  }

  predicate CompatibleAll(seqs: seq<Sequence>) {
    forall m, n {:trigger Compatible(seqs[m], seqs[n])} :: 0 <= m < n < |seqs| ==> Compatible(seqs[m], seqs[n])
  }

  /** The label of the state in which `s` waits for its event number `d`. */
  function ActiveLabel(s: Sequence, d: nat): Label
    requires d <= |s.nodes|
  {
    Label(Word(s)[..d], d > 0 && IsMinimum(s.nodes[d - 1].timer))
  }

  /** The first `d` nodes of sequence `m` are in, once `n` sequences and `k` nodes of the next one are. */
  predicate Inserted(seqs: seq<Sequence>, n: nat, k: nat, m: nat, d: nat) {
    m < |seqs| && 0 < d <= |seqs[m].nodes| && (m < n || (m == n && d <= k))
  }

  /** Labels and indices determine each other. */
  ghost predicate OneToOne(l: Labelling) {
    && |l.labels| == |l.owner|
    && (forall j :: 0 <= j < |l.labels| ==> l.labels[j] in l.index && l.index[l.labels[j]] == j)
    && (forall x :: x in l.index ==> l.index[x] < |l.labels| && l.labels[l.index[x]] == x)
  }

  ghost predicate Indexed(b: Build, l: Labelling) {
    && ValidBuild(b) && |l.labels| == |b.states| && OneToOne(l)
    && l.labels[HOME_STATE_IDX] == HOME_LABEL
    && b.metadata[HOME_STATE_IDX] == HOME_METADATA
    && b.states[HOME_STATE_IDX].fallback == HOME_STATE.fallback && b.states[HOME_STATE_IDX].timer.None?
  }

  /** A state in which a minimum wait has run out: it only has edges to go on with. */
  predicate DescribesWaited(state: State, metadata: StateMetadata, s: Sequence, d: nat)
    requires 0 < d <= |s.nodes|
  {
    && IsMinimum(s.nodes[d - 1].timer) && d < |s.nodes|
    && metadata == StateMetadata(None, s.behavior)
    && state.fallback == SILENT_FALLBACK && state.timer.None?
  }

  /** The state entered by event `d - 1` of `s`; `labels` tells where a minimum wait leads. */
  predicate DescribesEntered(state: State, metadata: StateMetadata, s: Sequence, d: nat, labels: seq<Label>)
    requires 0 < d <= |s.nodes|
  {
    var timer := s.nodes[d - 1].timer;
    && (d < |s.nodes| || timer.Some?)
    && metadata == StateMetadata(timer, s.behavior)
    && state.fallback == Fallback(s.behavior, Word(s)[..d])
    && match timer
       case None => state.timer.None?
       case Some(MaximumWait(_)) => state.timer == Some(state.fallback)
       case Some(MinimumWait(_)) =>
         state.edges == map[] && state.timer.Some? &&
         if d == |s.nodes| then state.timer.value == CompleteTimer(s)
         else
           var next := state.timer.value.newState;
           state.timer.value == Transition(None, [], next) && next < |labels| && labels[next] == Label(Word(s)[..d], true)
  }

  /** State `j` is what its label and its owner say. */
  ghost predicate StateOk(b: Build, l: Labelling, seqs: seq<Sequence>, n: nat, k: nat, j: nat)
    requires Indexed(b, l) && j < |b.states|
  {
    var m, d := l.owner[j], |l.labels[j].word|;
    && Inserted(seqs, n, k, m, d)
    && l.labels[j].word == Word(seqs[m])[..d]
    && if l.labels[j].waited then DescribesWaited(b.states[j], b.metadata[j], seqs[m], d)
       else DescribesEntered(b.states[j], b.metadata[j], seqs[m], d, l.labels)
  }

  /** Sequence `m` is wholly inserted, spells `word` and ends in an event. */
  predicate Completes(seqs: seq<Sequence>, n: nat, k: nat, m: nat, word: seq<InputEvent>) {
    && m < |seqs| && Inserted(seqs, n, k, m, |seqs[m].nodes|)
    && Word(seqs[m]) == word && !EndsTimed(seqs[m])
  }

  /** The edge on `e` out of state `j` completes a word or leads to the state of the longer word. */
  ghost predicate EdgeOk(b: Build, l: Labelling, seqs: seq<Sequence>, n: nat, k: nat, j: nat, e: InputEvent)
    requires Indexed(b, l) && j < |b.states| && e in b.states[j].edges
  {
    var t := b.states[j].edges[e];
    var word := l.labels[j].word + [e];
    if t.newState == HOME_STATE_IDX then
      exists m: nat :: Completes(seqs, n, k, m, word) && t == CompleteEdge(seqs[m], e)
    else
      && l.labels[t.newState] == Label(word, false)
      && Inserted(seqs, n, k, l.owner[t.newState], |word|)
      && var s := seqs[l.owner[t.newState]];
      t == Transition(Ms(s.nodes[|word| - 1].timer), Released(s.behavior, e), t.newState)
  }

  /** There is a state waiting for event `d` of `s`, and it has an edge for it. */
  ghost predicate Present(b: Build, l: Labelling, s: Sequence, d: nat)
    requires Indexed(b, l) && d < |s.nodes|
  {
    ActiveLabel(s, d) in l.index && s.nodes[d].event in b.states[l.index[ActiveLabel(s, d)]].edges
  }

  ghost predicate StatesOk(b: Build, l: Labelling, seqs: seq<Sequence>, n: nat, k: nat)
    requires Indexed(b, l)
  {
    forall j :: 0 < j < |b.states| ==> StateOk(b, l, seqs, n, k, j)
  }

  ghost predicate EdgesOk(b: Build, l: Labelling, seqs: seq<Sequence>, n: nat, k: nat)
    requires Indexed(b, l)
  {
    forall j, e {:trigger EdgeOk(b, l, seqs, n, k, j, e)} ::
      0 <= j < |b.states| && e in b.states[j].edges ==> EdgeOk(b, l, seqs, n, k, j, e)
  }

  ghost predicate AllPresent(b: Build, l: Labelling, seqs: seq<Sequence>, n: nat, k: nat)
    requires Indexed(b, l)
  {
    forall m: nat, d: nat :: Inserted(seqs, n, k, m, d) ==> Present(b, l, seqs[m], d - 1)
  }

  /** The build holds exactly what the first `n` sequences and `k` nodes of the next one call for. */
  ghost predicate Represents(b: Build, l: Labelling, seqs: seq<Sequence>, n: nat, k: nat) {
    && Indexed(b, l)
    && StatesOk(b, l, seqs, n, k)
    && EdgesOk(b, l, seqs, n, k)
    && AllPresent(b, l, seqs, n, k)
  }

  ghost predicate StandsAt(l: Labelling, s: Sequence, k: nat, cur: nat) {
    k < |s.nodes| ==> ActiveLabel(s, k) in l.index && l.index[ActiveLabel(s, k)] == cur
  }

  // ---------- growing a build ----------

  /** `b'` is `b` with an edge on `e` added at `cur` and perhaps more states behind the old ones. */
  ghost predicate Grows(b: Build, l: Labelling, b': Build, l': Labelling, cur: nat, e: InputEvent) {
    && Indexed(b, l) && Indexed(b', l') && cur < |b.states|
    && l.labels <= l'.labels && l.owner <= l'.owner && b.metadata <= b'.metadata
    && e !in b.states[cur].edges && e in b'.states[cur].edges
    && b'.states[cur] == b.states[cur].(edges := b.states[cur].edges[e := b'.states[cur].edges[e]])
    && (forall j :: 0 <= j < |b.states| && j != cur ==> b'.states[j] == b.states[j])
  }

  /** State `cur` is not one that still sits out a minimum wait. */
  predicate MayBranch(l: Labelling, seqs: seq<Sequence>, cur: nat) {
    && cur < |l.labels| == |l.owner|
    && (cur == HOME_STATE_IDX || l.labels[cur].waited ||
        var m, d := l.owner[cur], |l.labels[cur].word|;
        m < |seqs| && 0 < d <= |seqs[m].nodes| && !IsMinimum(seqs[m].nodes[d - 1].timer))
  }

  lemma StateKept(b: Build, l: Labelling, b': Build, l': Labelling, cur: nat, e: InputEvent,
                  seqs: seq<Sequence>, n: nat, k: nat, k': nat, j: nat)
    requires Grows(b, l, b', l', cur, e) && k <= k' && MayBranch(l, seqs, cur)
    requires 0 < j < |b.states| && StateOk(b, l, seqs, n, k, j)
    ensures StateOk(b', l', seqs, n, k', j)
  {
    var m, d := l.owner[j], |l.labels[j].word|;
    assert l'.owner[j] == m && l'.labels[j] == l.labels[j] && b'.metadata[j] == b.metadata[j];
    if !l.labels[j].waited {
      assert DescribesEntered(b.states[j], b.metadata[j], seqs[m], d, l.labels);
      assert DescribesEntered(b'.states[j], b'.metadata[j], seqs[m], d, l'.labels);
    }
  }

  lemma EdgeKept(b: Build, l: Labelling, b': Build, l': Labelling, cur: nat, e: InputEvent,
                 seqs: seq<Sequence>, n: nat, k: nat, k': nat, j: nat, e': InputEvent)
    requires Grows(b, l, b', l', cur, e) && k <= k'
    requires j < |b.states| && e' in b.states[j].edges && EdgeOk(b, l, seqs, n, k, j, e')
    ensures e' in b'.states[j].edges && EdgeOk(b', l', seqs, n, k', j, e')
  {
    var t, word := b.states[j].edges[e'], l.labels[j].word + [e'];
    assert b'.states[j].edges[e'] == t && l'.labels[j] == l.labels[j];
    if t.newState == HOME_STATE_IDX {
      var m: nat :| Completes(seqs, n, k, m, word) && t == CompleteEdge(seqs[m], e');
      assert Completes(seqs, n, k', m, word);
    }
  }

  lemma PresentKept(b: Build, l: Labelling, b': Build, l': Labelling, cur: nat, e: InputEvent,
                    seqs: seq<Sequence>, n: nat, k: nat, k': nat)
    requires Grows(b, l, b', l', cur, e) && AllPresent(b, l, seqs, n, k) && k' == k + 1
    requires n < |seqs| && k < |seqs[n].nodes| && StandsAt(l, seqs[n], k, cur) && seqs[n].nodes[k].event == e
    ensures AllPresent(b', l', seqs, n, k')
  {
    forall m: nat, d: nat | Inserted(seqs, n, k', m, d)
      ensures Present(b', l', seqs[m], d - 1)
    {
      var x := ActiveLabel(seqs[m], d - 1);
      if m == n && d == k' {
      } else {
        assert Inserted(seqs, n, k, m, d);
        assert Present(b, l, seqs[m], d - 1);
      }
      assert l'.labels[l.index[x]] == x;
    }
  }

  /** The new edge and the new states are right. */
  ghost predicate AddedOk(b: Build, b': Build, l': Labelling, cur: nat, e: InputEvent, seqs: seq<Sequence>, n: nat,
                          k: nat) {
    && Indexed(b', l') && cur < |b'.states| && e in b'.states[cur].edges && EdgeOk(b', l', seqs, n, k, cur, e)
    && forall j :: |b.states| <= j < |b'.states| ==> b'.states[j].edges == map[] && StateOk(b', l', seqs, n, k, j)
  }

  /** The old states and edges of a grown build are still right; what is left to show is the new ones. */
  lemma GrownRepresents(b: Build, l: Labelling, b': Build, l': Labelling, cur: nat, e: InputEvent,
                        seqs: seq<Sequence>, n: nat, k: nat, k': nat)
    requires Represents(b, l, seqs, n, k) && Grows(b, l, b', l', cur, e) && MayBranch(l, seqs, cur) && k' == k + 1
    requires n < |seqs| && k < |seqs[n].nodes| && StandsAt(l, seqs[n], k, cur) && seqs[n].nodes[k].event == e
    requires AddedOk(b, b', l', cur, e, seqs, n, k')
    ensures Represents(b', l', seqs, n, k')
  {
    forall j | 0 < j < |b'.states|
      ensures StateOk(b', l', seqs, n, k', j)
    {
      if j < |b.states| {
        assert StateOk(b, l, seqs, n, k, j);
        StateKept(b, l, b', l', cur, e, seqs, n, k, k', j);
      }
    }
    forall j, e' | 0 <= j < |b'.states| && e' in b'.states[j].edges
      ensures EdgeOk(b', l', seqs, n, k', j, e')
    {
      if !(j == cur && e' == e) {
        assert e' in b.states[j].edges && EdgeOk(b, l, seqs, n, k, j, e');
        EdgeKept(b, l, b', l', cur, e, seqs, n, k, k', j, e');
      }
    }
    PresentKept(b, l, b', l', cur, e, seqs, n, k, k');
  }

  // ---------- one insertion step ----------

  ghost predicate CompatibleBefore(seqs: seq<Sequence>, n: nat) {
    n < |seqs| && forall m {:trigger Compatible(seqs[m], seqs[n])} :: 0 <= m < n ==> Compatible(seqs[m], seqs[n])
  }

  /** The construction has reached node `k` of sequence `n` and stands at `cur`. */
  ghost predicate Ready(b: Build, l: Labelling, seqs: seq<Sequence>, n: nat, k: nat, cur: nat) {
    && Represents(b, l, seqs, n, k) && CompatibleBefore(seqs, n)
    && k < |seqs[n].nodes| && StandsAt(l, seqs[n], k, cur)
  }

  /** A sequence that is already in and shares the first `d` events has the same timer after them. */
  lemma SameTimer(seqs: seq<Sequence>, n: nat, k: nat, m: nat, d: nat)
    requires CompatibleBefore(seqs, n) && Inserted(seqs, n, k, m, d) && d <= |seqs[n].nodes|
    requires Word(seqs[m])[..d] == Word(seqs[n])[..d]
    ensures seqs[m].nodes[d - 1].timer == seqs[n].nodes[d - 1].timer
  {
    if m < n {
      assert Compatible(seqs[m], seqs[n]) && SharePrefix(seqs[m], seqs[n], d);
    }
  }

  lemma CurrentMayBranch(b: Build, l: Labelling, seqs: seq<Sequence>, n: nat, k: nat, cur: nat)
    requires Ready(b, l, seqs, n, k, cur)
    ensures cur < |b.states| && MayBranch(l, seqs, cur)
  {
    if cur > 0 {
      assert StateOk(b, l, seqs, n, k, cur);
      assert l.labels[cur] == ActiveLabel(seqs[n], k);
      SameTimer(seqs, n, k, l.owner[cur], k);
    }
  }

  lemma WordNext(s: Sequence, k: nat)
    requires k < |s.nodes|
    ensures Word(s)[..k + 1] == Word(s)[..k] + [s.nodes[k].event]
  {
  }

  /** If a sequence that shares the word up to and including the next event is in, the edge is there. */
  lemma EdgeFound(b: Build, l: Labelling, seqs: seq<Sequence>, n: nat, k: nat, cur: nat, m: nat)
    requires Ready(b, l, seqs, n, k, cur) && Inserted(seqs, n, k, m, k + 1)
    requires Word(seqs[m])[..k + 1] == Word(seqs[n])[..k + 1]
    ensures cur < |b.states| && seqs[n].nodes[k].event in b.states[cur].edges
  {
    assert Present(b, l, seqs[m], k);
    assert Word(seqs[m])[..k] == Word(seqs[m])[..k + 1][..k];
    assert Word(seqs[n])[..k] == Word(seqs[n])[..k + 1][..k];
    if k > 0 {
      assert Inserted(seqs, n, k, m, k);
      SameTimer(seqs, n, k, m, k);
    }
    assert seqs[m].nodes[k].event == Word(seqs[m])[..k + 1][k] == Word(seqs[n])[..k + 1][k];
  }

  /** Without an edge for the next event, no state stands for the longer word yet. */
  lemma FreshLabel(b: Build, l: Labelling, seqs: seq<Sequence>, n: nat, k: nat, cur: nat, waited: bool)
    requires Ready(b, l, seqs, n, k, cur) && seqs[n].nodes[k].event !in b.states[cur].edges
    ensures Label(Word(seqs[n])[..k + 1], waited) !in l.index
  {
    var x := Label(Word(seqs[n])[..k + 1], waited);
    if x in l.index {
      var j := l.index[x];
      assert l.labels[j] == x && StateOk(b, l, seqs, n, k, j);
      EdgeFound(b, l, seqs, n, k, cur, l.owner[j]);
      assert false;
    }
  }

  /** The last trigger of a new word: its edge leads home. */
  lemma CompleteStep(b: Build, l: Labelling, seqs: seq<Sequence>, n: nat, k: nat, cur: nat)
    requires Ready(b, l, seqs, n, k, cur) && seqs[n].nodes[k].event !in b.states[cur].edges
    requires k + 1 == |seqs[n].nodes| && seqs[n].nodes[k].timer.None?
    ensures var e := seqs[n].nodes[k].event;
      Represents(SetEdge(b, cur, e, CompleteEdge(seqs[n], e)), l, seqs, n, k + 1)
  {
    var s, e := seqs[n], seqs[n].nodes[k].event;
    var b' := SetEdge(b, cur, e, CompleteEdge(s, e));
    CurrentMayBranch(b, l, seqs, n, k, cur);
    WordNext(s, k);
    assert Word(s)[..k + 1] == Word(s);
    assert Completes(seqs, n, k + 1, n, l.labels[cur].word + [e]);
    assert Indexed(b', l);
    GrownRepresents(b, l, b', l, cur, e, seqs, n, k, k + 1);
  }

  function Extend(l: Labelling, name: Label, m: nat): Labelling {
    Labelling(l.labels + [name], l.owner + [m], l.index[name := |l.labels|])
  }

  lemma ExtendOneToOne(l: Labelling, name: Label, m: nat)
    requires OneToOne(l) && name !in l.index
    ensures OneToOne(Extend(l, name, m))
  {
  }

  /** The build right after a new word's edge and state are in, before the timer is hung on it. */
  function WithNewState(b: Build, s: Sequence, k: nat, cur: nat): Build
    requires k < |s.nodes| && cur < |b.states|
  {
    var node := s.nodes[k];
    SetEdge(Push(b, FreshState(s, k), StateMetadata(node.timer, s.behavior)), cur, node.event,
            Transition(Ms(node.timer), Released(s.behavior, node.event), |b.states|))
  }

  /** The states after a new word's edge and its state `t` are in, and the timer is hung on it. */
  function NewStates(b: Build, s: Sequence, k: nat, cur: nat): seq<State>
    requires k < |s.nodes| && cur < |b.states|
  {
    var node, t := s.nodes[k], |b.states|;
    var edge := Transition(Ms(node.timer), Released(s.behavior, node.event), t);
    var fallback := Fallback(s.behavior, Word(s)[..k + 1]);
    var timer := match node.timer
      case None => None
      case Some(MaximumWait(_)) => Some(fallback)
      case Some(MinimumWait(_)) =>
        Some(if k + 1 == |s.nodes| then CompleteTimer(s) else Transition(None, [], t + 1));
    b.states[cur := b.states[cur].(edges := b.states[cur].edges[node.event := edge])] + [State(map[], fallback, timer)]
  }

  lemma NewStatesShape(b: Build, s: Sequence, k: nat, cur: nat)
    requires ValidBuild(b) && k < |s.nodes| && cur < |b.states|
    ensures var (b', cur') := AttachTimer(WithNewState(b, s, k, cur), s, k, |b.states|);
      var meta := b.metadata + [StateMetadata(s.nodes[k].timer, s.behavior)];
      if IsMinimum(s.nodes[k].timer) && k + 1 < |s.nodes| then
        && b' == Build(NewStates(b, s, k, cur) + [State(map[], SILENT_FALLBACK, None)], meta + [StateMetadata(None, s.behavior)])
        && cur' == |b.states| + 1
      else b' == Build(NewStates(b, s, k, cur), meta) && cur' == |b.states|
  {
  }

  lemma NewStatesGrow(b: Build, l: Labelling, s: Sequence, k: nat, cur: nat, b': Build, l': Labelling)
    requires Indexed(b, l) && Indexed(b', l') && k < |s.nodes| && cur < |b.states| && s.nodes[k].event !in b.states[cur].edges
    requires NewStates(b, s, k, cur) <= b'.states && b.metadata <= b'.metadata
    requires l.labels <= l'.labels && l.owner <= l'.owner
    ensures Grows(b, l, b', l', cur, s.nodes[k].event)
  {
    forall j | 0 <= j < |b.states|
      ensures b'.states[j] == NewStates(b, s, k, cur)[j]
    {}
  }

  lemma NewStateAdded(b: Build, l: Labelling, seqs: seq<Sequence>, n: nat, k: nat, cur: nat, b': Build, l': Labelling)
    requires Ready(b, l, seqs, n, k, cur) && cur < |b.states| && ValidBuild(b')
    requires !(k + 1 == |seqs[n].nodes| && seqs[n].nodes[k].timer.None?)
    requires IsMinimum(seqs[n].nodes[k].timer) ==> k + 1 == |seqs[n].nodes|
    requires b' == Build(NewStates(b, seqs[n], k, cur), b.metadata + [StateMetadata(seqs[n].nodes[k].timer, seqs[n].behavior)])
    requires l' == Extend(l, Label(Word(seqs[n])[..k + 1], false), n) && OneToOne(l')
    ensures AddedOk(b, b', l', cur, seqs[n].nodes[k].event, seqs, n, k + 1)
  {
    var s, t := seqs[n], |b.states|;
    WordNext(s, k);
    assert DescribesEntered(b'.states[t], b'.metadata[t], s, k + 1, l'.labels);
    assert StateOk(b', l', seqs, n, k + 1, t);
    assert l.labels[cur] == ActiveLabel(s, k);
  }

  /** A trigger that makes a new state, with no timer, a maximum wait, or a final minimum wait. */
  lemma NewStateStep(b: Build, l: Labelling, seqs: seq<Sequence>, n: nat, k: nat, cur: nat, b': Build, cur': nat)
      returns (l': Labelling)
    requires Ready(b, l, seqs, n, k, cur) && seqs[n].nodes[k].event !in b.states[cur].edges
    requires !(k + 1 == |seqs[n].nodes| && seqs[n].nodes[k].timer.None?)
    requires IsMinimum(seqs[n].nodes[k].timer) ==> k + 1 == |seqs[n].nodes|
    requires (b', cur') == AttachTimer(WithNewState(b, seqs[n], k, cur), seqs[n], k, |b.states|)
    ensures Represents(b', l', seqs, n, k + 1) && StandsAt(l', seqs[n], k + 1, cur')
  {
    var s, name := seqs[n], Label(Word(seqs[n])[..k + 1], false);
    CurrentMayBranch(b, l, seqs, n, k, cur);
    FreshLabel(b, l, seqs, n, k, cur, false);
    NewStatesShape(b, s, k, cur);
    l' := Extend(l, name, n);
    ExtendOneToOne(l, name, n);
    NewStateAdded(b, l, seqs, n, k, cur, b', l');
    NewStatesGrow(b, l, s, k, cur, b', l');
    GrownRepresents(b, l, b', l', cur, s.nodes[k].event, seqs, n, k, k + 1);
  }

  lemma TwoLabels(l: Labelling, word: seq<InputEvent>, m: nat) returns (l': Labelling)
    requires OneToOne(l) && Label(word, false) !in l.index && Label(word, true) !in l.index
    ensures OneToOne(l') && l.labels <= l'.labels && l.owner <= l'.owner && |l'.labels| == |l.labels| + 2
    ensures l'.labels[|l.labels|] == Label(word, false) && l'.labels[|l.labels| + 1] == Label(word, true)
    ensures l'.owner[|l.labels|] == m && l'.owner[|l.labels| + 1] == m
    ensures Label(word, true) in l'.index && l'.index[Label(word, true)] == |l.labels| + 1
  {
    var l1 := Extend(l, Label(word, false), m);
    ExtendOneToOne(l, Label(word, false), m);
    ExtendOneToOne(l1, Label(word, true), m);
    l' := Extend(l1, Label(word, true), m);
  }

  lemma NewWaitAdded(b: Build, l: Labelling, seqs: seq<Sequence>, n: nat, k: nat, cur: nat, b': Build, l': Labelling)
    requires Ready(b, l, seqs, n, k, cur) && cur < |b.states| && ValidBuild(b') && Indexed(b', l')
    requires IsMinimum(seqs[n].nodes[k].timer) && k + 1 < |seqs[n].nodes|
    requires b'.states == NewStates(b, seqs[n], k, cur) + [State(map[], SILENT_FALLBACK, None)]
    requires b'.metadata == b.metadata +
      [StateMetadata(seqs[n].nodes[k].timer, seqs[n].behavior), StateMetadata(None, seqs[n].behavior)]
    requires l.labels <= l'.labels && l'.labels[|b.states|] == Label(Word(seqs[n])[..k + 1], false)
    requires l'.labels[|b.states| + 1] == Label(Word(seqs[n])[..k + 1], true)
    requires l'.owner[|b.states|] == n && l'.owner[|b.states| + 1] == n
    ensures AddedOk(b, b', l', cur, seqs[n].nodes[k].event, seqs, n, k + 1)
  {
    var s, t := seqs[n], |b.states|;
    WordNext(s, k);
    assert StateOk(b', l', seqs, n, k + 1, t) by {
      assert DescribesEntered(b'.states[t], b'.metadata[t], s, k + 1, l'.labels);
    }
    assert StateOk(b', l', seqs, n, k + 1, t + 1) by {
      assert DescribesWaited(b'.states[t + 1], b'.metadata[t + 1], s, k + 1);
    }
    assert EdgeOk(b', l', seqs, n, k + 1, cur, s.nodes[k].event) by {
      assert l.labels[cur] == ActiveLabel(s, k);
    }
  }

  /** A trigger that makes a new state followed by a minimum wait and the state behind that wait. */
  lemma NewWaitStep(b: Build, l: Labelling, seqs: seq<Sequence>, n: nat, k: nat, cur: nat, b': Build)
      returns (l': Labelling)
    requires Ready(b, l, seqs, n, k, cur) && seqs[n].nodes[k].event !in b.states[cur].edges
    requires IsMinimum(seqs[n].nodes[k].timer) && k + 1 < |seqs[n].nodes| && ValidBuild(b')
    requires b'.states == NewStates(b, seqs[n], k, cur) + [State(map[], SILENT_FALLBACK, None)]
    requires b'.metadata == b.metadata +
      [StateMetadata(seqs[n].nodes[k].timer, seqs[n].behavior), StateMetadata(None, seqs[n].behavior)]
    ensures Represents(b', l', seqs, n, k + 1) && StandsAt(l', seqs[n], k + 1, |b.states| + 1)
  {
    var s := seqs[n];
    CurrentMayBranch(b, l, seqs, n, k, cur);
    FreshLabel(b, l, seqs, n, k, cur, false);
    FreshLabel(b, l, seqs, n, k, cur, true);
    l' := TwoLabels(l, Word(s)[..k + 1], n);
    NewWaitAdded(b, l, seqs, n, k, cur, b', l');
    NewStatesGrow(b, l, s, k, cur, b', l');
    GrownRepresents(b, l, b', l', cur, s.nodes[k].event, seqs, n, k, k + 1);
  }

  /** The last trigger of a sequence that ends in an event. */
  predicate IsLast(s: Sequence, k: nat)
    requires k < |s.nodes|
  {
    k + 1 == |s.nodes| && s.nodes[k].timer.None?
  }

  /** An edge that is already there and leads home belongs to a complete word. */
  lemma HomeEdgeOwner(b: Build, l: Labelling, seqs: seq<Sequence>, n: nat, k: nat, cur: nat) returns (m: nat)
    requires Ready(b, l, seqs, n, k, cur) && cur < |b.states| && seqs[n].nodes[k].event in b.states[cur].edges
    requires b.states[cur].edges[seqs[n].nodes[k].event].newState == HOME_STATE_IDX
    ensures m < n && Word(seqs[m]) == Word(seqs[n])[..k + 1] && NestedIn(seqs[m], seqs[n]) && !EndsTimed(seqs[m])
    ensures seqs[m].nodes[k].timer == seqs[n].nodes[k].timer
  {
    var s, e := seqs[n], seqs[n].nodes[k].event;
    WordNext(s, k);
    assert l.labels[cur] == ActiveLabel(s, k) && EdgeOk(b, l, seqs, n, k, cur, e);
    m :| Completes(seqs, n, k, m, l.labels[cur].word + [e]) && b.states[cur].edges[e] == CompleteEdge(seqs[m], e);
    CompletedIsNested(seqs, n, k, m);
  }

  lemma CompletedIsNested(seqs: seq<Sequence>, n: nat, k: nat, m: nat)
    requires CompatibleBefore(seqs, n) && k < |seqs[n].nodes| && Completes(seqs, n, k, m, Word(seqs[n])[..k + 1])
    ensures m < n && Word(seqs[m]) == Word(seqs[n])[..k + 1] && NestedIn(seqs[m], seqs[n]) && !EndsTimed(seqs[m])
    ensures seqs[m].nodes[k].timer == seqs[n].nodes[k].timer
  {
    assert Word(seqs[m])[..k + 1] == Word(seqs[m]);
    SameTimer(seqs, n, k, m, k + 1);
  }

  /** A step along such an edge is refused. */
  lemma RefusedAtHome(b: Build, l: Labelling, seqs: seq<Sequence>, n: nat, k: nat, cur: nat) returns (m: nat)
    requires Ready(b, l, seqs, n, k, cur) && cur < |b.states| && seqs[n].nodes[k].event in b.states[cur].edges
    requires b.states[cur].edges[seqs[n].nodes[k].event].newState == HOME_STATE_IDX
    ensures m < n && NestedIn(seqs[m], seqs[n]) && InsertNode(b, seqs[n], k, cur).None?
  {
    m := HomeEdgeOwner(b, l, seqs, n, k, cur);
    var s := seqs[n];
    assert Compatible(seqs[m], s);
    if !IsLast(s, k) {
      assert |Word(seqs[m])| < |Word(s)|;
      assert b.metadata[HOME_STATE_IDX].behavior == SequenceBehavior.Default != s.behavior;
    }
  }

  /** Where two compatible words share an event with a timer after it, both go on. */
  lemma TimedGoesOn(a: Sequence, b: Sequence, k: nat)
    requires Compatible(a, b) && SharePrefix(a, b, k + 1) && a.nodes[k].timer.Some? && b.nodes[k].timer.Some?
    ensures k + 1 < |a.nodes| && k + 1 < |b.nodes|
  {
    if k + 1 == |a.nodes| {
      assert Word(a)[..k + 1] == Word(a);
      assert NestedIn(a, b);
    } else if k + 1 == |b.nodes| {
      assert Word(b)[..k + 1] == Word(b);
      assert NestedIn(b, a);
    }
  }

  /** The owner of the state an existing edge leads to: an earlier sequence that shares the word so far and goes on. */
  lemma EdgeOwner(b: Build, l: Labelling, seqs: seq<Sequence>, n: nat, k: nat, cur: nat) returns (t: nat, o: nat)
    requires Ready(b, l, seqs, n, k, cur) && seqs[n].nodes[k].event in b.states[cur].edges
    requires b.states[cur].edges[seqs[n].nodes[k].event].newState != HOME_STATE_IDX
    ensures t == b.states[cur].edges[seqs[n].nodes[k].event].newState && 0 < t < |b.states|
    ensures o == l.owner[t] && o < n && SharePrefix(seqs[o], seqs[n], k + 1) && !IsLast(seqs[o], k)
    ensures l.labels[t] == Label(Word(seqs[n])[..k + 1], false)
    ensures seqs[o].nodes[k].timer == seqs[n].nodes[k].timer
    ensures DescribesEntered(b.states[t], b.metadata[t], seqs[o], k + 1, l.labels)
  {
    var e := seqs[n].nodes[k].event;
    WordNext(seqs[n], k);
    assert l.labels[cur] == ActiveLabel(seqs[n], k) && EdgeOk(b, l, seqs, n, k, cur, e);
    t := b.states[cur].edges[e].newState;
    assert StateOk(b, l, seqs, n, k, t);
    o := l.owner[t];
    SameTimer(seqs, n, k, o, k + 1);
  }

  /** Following an edge that is already there changes nothing. */
  lemma SharedStep(b: Build, l: Labelling, seqs: seq<Sequence>, n: nat, k: nat, cur: nat, b': Build, cur': nat)
    requires Ready(b, l, seqs, n, k, cur) && cur < |b.states| && seqs[n].nodes[k].event in b.states[cur].edges
    requires InsertNode(b, seqs[n], k, cur) == Some((b', cur'))
    ensures b' == b && Represents(b, l, seqs, n, k + 1) && StandsAt(l, seqs[n], k + 1, cur')
  {
    var s, e := seqs[n], seqs[n].nodes[k].event;
    if b.states[cur].edges[e].newState == HOME_STATE_IDX {
      var _ := RefusedAtHome(b, l, seqs, n, k, cur);
      assert false;
    }
    var t, o := EdgeOwner(b, l, seqs, n, k, cur);
    assert Compatible(seqs[o], s);
    if IsMinimum(s.nodes[k].timer) {
      TimedGoesOn(seqs[o], s, k);
      assert l.labels[cur'] == ActiveLabel(s, k + 1);
    }
    RepresentsMore(b, l, seqs, n, k, cur, k + 1);
  }

  lemma RepresentsMore(b: Build, l: Labelling, seqs: seq<Sequence>, n: nat, k: nat, cur: nat, k': nat)
    requires Ready(b, l, seqs, n, k, cur) && seqs[n].nodes[k].event in b.states[cur].edges && k' == k + 1
    ensures Represents(b, l, seqs, n, k')
  {
    InsertedMore(b, l, seqs, n, k, n, k');
    forall m: nat, d: nat | Inserted(seqs, n, k', m, d)
      ensures Present(b, l, seqs[m], d - 1)
    {
      if !(m == n && d == k') {
        assert Inserted(seqs, n, k, m, d);
      }
    }
  }

  /** States and edges stay right when more counts as inserted. */
  lemma InsertedMore(b: Build, l: Labelling, seqs: seq<Sequence>, n: nat, k: nat, n': nat, k': nat)
    requires Indexed(b, l) && StatesOk(b, l, seqs, n, k) && EdgesOk(b, l, seqs, n, k)
    requires n < n' || (n == n' && k <= k')
    ensures StatesOk(b, l, seqs, n', k') && EdgesOk(b, l, seqs, n', k')
  {
    forall j | 0 < j < |b.states|
      ensures StateOk(b, l, seqs, n', k', j)
    {
      assert StateOk(b, l, seqs, n, k, j);
    }
    forall j, e | 0 <= j < |b.states| && e in b.states[j].edges
      ensures EdgeOk(b, l, seqs, n', k', j, e)
    {
      assert EdgeOk(b, l, seqs, n, k, j, e);
      var t, word := b.states[j].edges[e], l.labels[j].word + [e];
      if t.newState == HOME_STATE_IDX {
        var m: nat :| Completes(seqs, n, k, m, word) && t == CompleteEdge(seqs[m], e);
        assert Completes(seqs, n', k', m, word);
      }
    }
  }

  /** One insertion step, whatever it meets. */
  lemma InsertStep(b: Build, l: Labelling, seqs: seq<Sequence>, n: nat, k: nat, cur: nat, b': Build, cur': nat)
      returns (l': Labelling)
    requires Ready(b, l, seqs, n, k, cur) && cur < |b.states|
    requires InsertNode(b, seqs[n], k, cur) == Some((b', cur'))
    ensures Represents(b', l', seqs, n, k + 1) && StandsAt(l', seqs[n], k + 1, cur')
  {
    var s := seqs[n];
    if s.nodes[k].event in b.states[cur].edges {
      SharedStep(b, l, seqs, n, k, cur, b', cur');
      l' := l;
    } else if IsLast(s, k) {
      CompleteStep(b, l, seqs, n, k, cur);
      l' := l;
    } else if IsMinimum(s.nodes[k].timer) && k + 1 < |s.nodes| {
      NewStatesShape(b, s, k, cur);
      l' := NewWaitStep(b, l, seqs, n, k, cur, b');
    } else {
      l' := NewStateStep(b, l, seqs, n, k, cur, b', cur');
    }
  }
}
