/** The finished automaton: exactly one state per pending prefix, and every sequence can be run on it. */
module Structure {
  import opened Options
  import opened Profiles
  import opened Automata
  import opened StateMachine
  import opened TreeShape
  import opened Trie
  import opened Acceptance

  /** `b` is the finished build of all of `seqs`, no two of which clash. */
  ghost predicate Finished(b: Build, l: Labelling, seqs: seq<Sequence>) {
    Represents(b, l, seqs, |seqs|, 0) && ClashFree(seqs, |seqs|)
  }

  lemma FinishedState(b: Build, l: Labelling, seqs: seq<Sequence>, j: nat)
    requires Finished(b, l, seqs) && 0 < j < |b.states|
    ensures StateOk(b, l, seqs, |seqs|, 0, j)
  {
  }

  lemma FinishedEdge(b: Build, l: Labelling, seqs: seq<Sequence>, j: nat, e: InputEvent)
    requires Finished(b, l, seqs) && j < |b.states| && e in b.states[j].edges
    ensures EdgeOk(b, l, seqs, |seqs|, 0, j, e)
  {
  }

  lemma FinishedPresent(b: Build, l: Labelling, seqs: seq<Sequence>, m: nat, d: nat)
    requires Finished(b, l, seqs) && m < |seqs| && d < |seqs[m].nodes|
    ensures Present(b, l, seqs[m], d)
  {
    assert Inserted(seqs, |seqs|, 0, m, d + 1);
  }

  /** An accepted layer of compatible sequences has a finished build. */
  lemma CompileFinished(seqs: seq<Sequence>) returns (b: Build, l: Labelling)
    requires CompatibleAll(seqs) && Compile(seqs).Some?
    ensures Finished(b, l, seqs) && b.states == Compile(seqs).value && TimersAnswered(b.states)
  {
    l := CompiledRepresents(seqs, |seqs|);
    b := CompilePrefix(seqs, |seqs|).value;
    var _ := CompiledTree(seqs, |seqs|);
  }

  /** After `d` events of `s` there is something left to wait for. */
  predicate Pending(s: Sequence, d: nat) {
    0 < d <= |s.nodes| && (d < |s.nodes| || EndsTimed(s))
  }

  /** The labels the layer calls for: HOME, the pending prefixes, and those with a minimum wait run out. */
  function LabelsOf(seqs: seq<Sequence>): set<Label> {
    {HOME_LABEL}
    + (set m, d | 0 <= m < |seqs| && 0 <= d <= |seqs[m].nodes| && Pending(seqs[m], d) :: Label(Word(seqs[m])[..d], false))
    + (set m, d | 0 <= m < |seqs| && 0 < d < |seqs[m].nodes| && IsMinimum(seqs[m].nodes[d - 1].timer) ::
         Label(Word(seqs[m])[..d], true))
  }

  lemma SameWordClashes(seqs: seq<Sequence>, m: nat, o: nat)
    requires ClashFree(seqs, |seqs|) && m < |seqs| && o < |seqs| && NestedIn(seqs[m], seqs[o])
    ensures m == o
  {
    NestedClashes(seqs[m], seqs[o]);
  }

  /** What the edge for event `d` of a sequence says: it completes exactly that sequence or enters the next prefix. */
  ghost predicate SequenceEdgeOk(b: Build, l: Labelling, seqs: seq<Sequence>, s: Sequence, d: nat, t: Transition)
    requires Indexed(b, l) && d < |s.nodes|
  {
    var e := s.nodes[d].event;
    if IsLast(s, d) then t == CompleteEdge(s, e)
    else
      && 0 < t.newState < |b.states| && l.labels[t.newState] == Label(Word(s)[..d + 1], false)
      && StateOk(b, l, seqs, |seqs|, 0, t.newState)
      && d < |seqs[l.owner[t.newState]].nodes|
      && t == Transition(Ms(seqs[l.owner[t.newState]].nodes[d].timer),
                         Released(seqs[l.owner[t.newState]].behavior, e), t.newState)
  }

  lemma CompletedHere(seqs: seq<Sequence>, m: nat, d: nat, o: nat)
    requires ClashFree(seqs, |seqs|) && m < |seqs| && d < |seqs[m].nodes|
    requires Completes(seqs, |seqs|, 0, o, Word(seqs[m])[..d + 1])
    ensures o == m && IsLast(seqs[m], d)
  {
    SameWordClashes(seqs, o, m);
    assert |Word(seqs[o])| == d + 1;
  }

  lemma NotLastHere(seqs: seq<Sequence>, m: nat, d: nat, o: nat)
    requires ClashFree(seqs, |seqs|) && m < |seqs| && o < |seqs| && d < |seqs[m].nodes|
    requires SharePrefix(seqs[o], seqs[m], d + 1) && !IsLast(seqs[o], d)
    ensures !IsLast(seqs[m], d)
  {
    if d + 1 == |seqs[m].nodes| {
      assert Word(seqs[m]) == Word(seqs[m])[..d + 1];
      SameWordClashes(seqs, m, o);
    }
  }

  lemma EdgeSpells(b: Build, l: Labelling, seqs: seq<Sequence>, m: nat, d: nat, cur: nat)
    requires Indexed(b, l) && ClashFree(seqs, |seqs|) && m < |seqs| && d < |seqs[m].nodes| && cur < |b.states|
    requires l.labels[cur].word == Word(seqs[m])[..d] && seqs[m].nodes[d].event in b.states[cur].edges
    requires EdgeOk(b, l, seqs, |seqs|, 0, cur, seqs[m].nodes[d].event)
    requires var t := b.states[cur].edges[seqs[m].nodes[d].event].newState; t > 0 ==> StateOk(b, l, seqs, |seqs|, 0, t)
    ensures SequenceEdgeOk(b, l, seqs, seqs[m], d, b.states[cur].edges[seqs[m].nodes[d].event])
  {
    var e := seqs[m].nodes[d].event;
    WordNext(seqs[m], d);
    var t := b.states[cur].edges[e];
    if t.newState == HOME_STATE_IDX {
      var o: nat :| Completes(seqs, |seqs|, 0, o, l.labels[cur].word + [e]) && t == CompleteEdge(seqs[o], e);
      CompletedHere(seqs, m, d, o);
    } else {
      NotLastHere(seqs, m, d, l.owner[t.newState]);
    }
  }

  /** In a finished build every sequence finds its edges. */
  lemma SequenceEdge(b: Build, l: Labelling, seqs: seq<Sequence>, m: nat, d: nat) returns (cur: nat)
    requires Finished(b, l, seqs) && m < |seqs| && d < |seqs[m].nodes|
    ensures ActiveLabel(seqs[m], d) in l.index && cur == l.index[ActiveLabel(seqs[m], d)] && cur < |b.states|
    ensures seqs[m].nodes[d].event in b.states[cur].edges
    ensures SequenceEdgeOk(b, l, seqs, seqs[m], d, b.states[cur].edges[seqs[m].nodes[d].event])
  {
    FinishedPresent(b, l, seqs, m, d);
    cur := l.index[ActiveLabel(seqs[m], d)];
    var e := seqs[m].nodes[d].event;
    FinishedEdge(b, l, seqs, cur, e);
    if b.states[cur].edges[e].newState > 0 {
      FinishedState(b, l, seqs, b.states[cur].edges[e].newState);
    }
    EdgeSpells(b, l, seqs, m, d, cur);
  }

  lemma LabelsCalledFor(b: Build, l: Labelling, seqs: seq<Sequence>, x: Label)
    requires Finished(b, l, seqs) && x in l.index
    ensures x in LabelsOf(seqs)
  {
    var j := l.index[x];
    assert l.labels[j] == x;
    if j > 0 {
      assert StateOk(b, l, seqs, |seqs|, 0, j);
      var m, d := l.owner[j], |x.word|;
      assert x.waited || Pending(seqs[m], d);
    }
  }

  lemma PendingPresent(b: Build, l: Labelling, seqs: seq<Sequence>, m: nat, d: nat)
    requires Finished(b, l, seqs) && m < |seqs| && Pending(seqs[m], d)
    ensures Label(Word(seqs[m])[..d], false) in l.index
  {
    var cur := SequenceEdge(b, l, seqs, m, d - 1);
    assert l.labels[b.states[cur].edges[seqs[m].nodes[d - 1].event].newState] == Label(Word(seqs[m])[..d], false);
  }

  lemma WaitedPresent(b: Build, l: Labelling, seqs: seq<Sequence>, m: nat, d: nat)
    requires Finished(b, l, seqs) && m < |seqs| && 0 < d < |seqs[m].nodes| && IsMinimum(seqs[m].nodes[d - 1].timer)
    ensures Label(Word(seqs[m])[..d], true) in l.index
  {
    var _ := SequenceEdge(b, l, seqs, m, d);
  }

  lemma LabelsPresent(b: Build, l: Labelling, seqs: seq<Sequence>, x: Label)
    requires Finished(b, l, seqs) && x in LabelsOf(seqs)
    ensures x in l.index
  {
    if x == HOME_LABEL {
      assert l.labels[0] == x;
    } else if x.waited {
      var m, d :| 0 <= m < |seqs| && 0 < d < |seqs[m].nodes| && IsMinimum(seqs[m].nodes[d - 1].timer) &&
        x == Label(Word(seqs[m])[..d], true);
      WaitedPresent(b, l, seqs, m, d);
    } else {
      var m, d :| 0 <= m < |seqs| && 0 <= d <= |seqs[m].nodes| && Pending(seqs[m], d) &&
        x == Label(Word(seqs[m])[..d], false);
      PendingPresent(b, l, seqs, m, d);
    }
  }

  /** States are in one-to-one correspondence with the labels the layer calls for, none missing and none to spare; and
      each falls back as its own word asks: for Default the first event translated, the middle ones replayed, then the
      current one translated. */
  lemma MinimalTrie(b: Build, l: Labelling, seqs: seq<Sequence>)
    requires Finished(b, l, seqs)
    ensures l.index.Keys == LabelsOf(seqs)
    ensures |b.states| == |LabelsOf(seqs)|
    ensures forall j :: 0 <= j < |b.states| ==> l.labels[j] in LabelsOf(seqs) && l.index[l.labels[j]] == j
    ensures forall j :: 0 < j < |b.states| && !l.labels[j].waited ==>
      && l.owner[j] < |seqs| && l.labels[j].word <= Word(seqs[l.owner[j]])
      && b.states[j].fallback == Fallback(seqs[l.owner[j]].behavior, l.labels[j].word)
  {
    forall x | x in l.index
      ensures x in LabelsOf(seqs)
    {
      LabelsCalledFor(b, l, seqs, x);
    }
    forall x | x in LabelsOf(seqs)
      ensures x in l.index
    {
      LabelsPresent(b, l, seqs, x);
    }
    forall j | 0 < j < |b.states| && !l.labels[j].waited
      ensures l.owner[j] < |seqs| && l.labels[j].word <= Word(seqs[l.owner[j]])
      ensures b.states[j].fallback == Fallback(seqs[l.owner[j]].behavior, l.labels[j].word)
    {
      FinishedState(b, l, seqs, j);
    }
    IndexSize(l, |b.states|);
  }

  lemma {:induction false} IndexSize(l: Labelling, n: nat)
    requires OneToOne(l) && n == |l.labels|
    ensures |l.index.Keys| == n
  {
    var image := set j | 0 <= j < n :: l.labels[j];
    LabelsSize(l, n);
    assert image == l.index.Keys by {
      forall x | x in l.index
        ensures x in image
      {
        assert l.labels[l.index[x]] == x;
      }
    }
  }

  lemma {:induction false} LabelsSize(l: Labelling, n: nat)
    requires OneToOne(l) && n <= |l.labels|
    ensures |set j | 0 <= j < n :: l.labels[j]| == n
  {
    if n > 0 {
      LabelsSize(l, n - 1);
      var rest := set j | 0 <= j < n - 1 :: l.labels[j];
      assert (set j | 0 <= j < n :: l.labels[j]) == rest + {l.labels[n - 1]};
    }
  }

  /** The steps that bring the automaton to where `s` waits for its event `d`. */
  function Approach(s: Sequence, d: nat): seq<Step>
    requires d <= |s.nodes|
  {
    if d == 0 then []
    else
      Approach(s, d - 1) + [OnEvent(s.nodes[d - 1].event)] +
      (if IsMinimum(s.nodes[d - 1].timer) then [OnTimer] else [])
  }

  lemma WalkNext(states: seq<State>, i: nat, path: seq<Step>, via: Step)
    ensures Walk(states, i, path + [via]) ==
      match Walk(states, i, path) case None => None case Some(j) => Target(states, j, via)
  {
    assert (path + [via])[..|path|] == path;
  }

  /** Where `s` waits for its event `d` there is an edge for it, into state `t`, and `s` itself describes that state. */
  ghost predicate Enters(b: Build, l: Labelling, s: Sequence, d: nat, cur: nat, t: nat)
    requires d < |s.nodes|
  {
    && Indexed(b, l) && cur < |b.states| && 0 < t < |b.states|
    && ActiveLabel(s, d) in l.index && cur == l.index[ActiveLabel(s, d)]
    && l.labels[t] == Label(Word(s)[..d + 1], false)
    && s.nodes[d].event in b.states[cur].edges
    && b.states[cur].edges[s.nodes[d].event] == Transition(Ms(s.nodes[d].timer), Released(s.behavior, s.nodes[d].event), t)
    && DescribesEntered(b.states[t], b.metadata[t], s, d + 1, l.labels)
  }

  /** Event `d` of a sequence, when it is not the last, enters a state described by the sequence itself. */
  lemma SequenceEntered(b: Build, l: Labelling, seqs: seq<Sequence>, m: nat, d: nat) returns (cur: nat, t: nat)
    requires Finished(b, l, seqs) && CompatibleAll(seqs) && m < |seqs| && d < |seqs[m].nodes| && !IsLast(seqs[m], d)
    ensures Enters(b, l, seqs[m], d, cur, t)
  {
    cur := SequenceEdge(b, l, seqs, m, d);
    t := b.states[cur].edges[seqs[m].nodes[d].event].newState;
    OwnerSpeaksFor(b, l, seqs, t, m, d + 1);
  }

  ghost predicate Approached(b: Build, l: Labelling, s: Sequence, d: nat)
    requires d <= |s.nodes|
  {
    && ActiveLabel(s, d) in l.index
    && Walk(b.states, HOME_STATE_IDX, Approach(s, d)) == Some(l.index[ActiveLabel(s, d)])
  }

  /** From where `s` waits for event `d - 1`, over its edge and perhaps a minimum wait, to where it waits for event `d`. */
  lemma ApproachStep(b: Build, l: Labelling, s: Sequence, d: nat, cur: nat, t: nat)
    requires 0 < d < |s.nodes| && Approached(b, l, s, d - 1) && Enters(b, l, s, d - 1, cur, t)
    ensures Approached(b, l, s, d)
  {
    var path, e := Approach(s, d - 1), s.nodes[d - 1].event;
    WalkNext(b.states, HOME_STATE_IDX, path, OnEvent(e));
    if IsMinimum(s.nodes[d - 1].timer) {
      WalkNext(b.states, HOME_STATE_IDX, path + [OnEvent(e)], OnTimer);
      assert l.labels[b.states[t].timer.value.newState] == ActiveLabel(s, d);
    } else {
      assert Approach(s, d) == path + [OnEvent(e)];
    }
  }

  /** Following its own events and minimum waits from HOME, every sequence gets through to its next event. */
  lemma {:induction false} SequenceApproach(b: Build, l: Labelling, seqs: seq<Sequence>, m: nat, d: nat)
    requires Finished(b, l, seqs) && CompatibleAll(seqs) && m < |seqs| && d < |seqs[m].nodes|
    ensures Approached(b, l, seqs[m], d)
    decreases d
  {
    if d == 0 {
      assert ActiveLabel(seqs[m], 0) == HOME_LABEL == l.labels[0];
    } else {
      SequenceApproach(b, l, seqs, m, d - 1);
      var cur, t := SequenceEntered(b, l, seqs, m, d - 1);
      ApproachStep(b, l, seqs[m], d, cur, t);
    }
  }

  /** A state described by its owner is described just as well by every sequence that passes through it. */
  lemma OwnerSpeaksFor(b: Build, l: Labelling, seqs: seq<Sequence>, t: nat, m: nat, d: nat)
    requires ClashFree(seqs, |seqs|) && CompatibleAll(seqs) && m < |seqs| && Pending(seqs[m], d)
    requires Indexed(b, l) && 0 < t < |b.states| && l.labels[t] == Label(Word(seqs[m])[..d], false)
    requires StateOk(b, l, seqs, |seqs|, 0, t)
    ensures seqs[l.owner[t]].behavior == seqs[m].behavior
    ensures seqs[l.owner[t]].nodes[d - 1].timer == seqs[m].nodes[d - 1].timer
    ensures DescribesEntered(b.states[t], b.metadata[t], seqs[m], d, l.labels)
  {
    var o := l.owner[t];
    SharersAgree(seqs, o, m, d);
    if o != m {
      NotExhausted(seqs, m, o, d);
      NotExhausted(seqs, o, m, d);
    }
  }

  lemma NotExhausted(seqs: seq<Sequence>, m: nat, o: nat, d: nat)
    requires ClashFree(seqs, |seqs|) && o < |seqs| && m < |seqs| && SharePrefix(seqs[o], seqs[m], d) && m != o
    ensures d < |seqs[m].nodes|
  {
    if d == |seqs[m].nodes| {
      assert Word(seqs[m]) == Word(seqs[m])[..d];
      SameWordClashes(seqs, m, o);
      assert false;
    }
  }

  lemma SharersAgree(seqs: seq<Sequence>, o: nat, m: nat, d: nat)
    requires ClashFree(seqs, |seqs|) && CompatibleAll(seqs) && o < |seqs| && m < |seqs|
    requires SharePrefix(seqs[o], seqs[m], d)
    ensures seqs[o].behavior == seqs[m].behavior && seqs[o].nodes[d - 1].timer == seqs[m].nodes[d - 1].timer
  {
    assert Word(seqs[o])[..d][0] == Word(seqs[m])[..d][0];
    if o < m {
      assert !Clashing(seqs[o], seqs[m]) && Compatible(seqs[o], seqs[m]);
    } else if m < o {
      assert !Clashing(seqs[m], seqs[o]) && Compatible(seqs[m], seqs[o]) && SharePrefix(seqs[m], seqs[o], d);
    }
  }

  /** Every sequence survives later insertions: its last step is there, goes home and emits exactly its binds,
      after the last event itself when it ends in an event and releases. A final maximum wait never emits them. */
  lemma SequenceSurvives(b: Build, l: Labelling, seqs: seq<Sequence>, m: nat)
    requires Finished(b, l, seqs) && CompatibleAll(seqs) && m < |seqs| && seqs[m].nodes != []
    ensures var s := seqs[m];
      var k := |s.nodes| - 1;
      var before := Walk(b.states, HOME_STATE_IDX, Approach(s, k));
      && before.Some? && before.value < |b.states| && s.nodes[k].event in b.states[before.value].edges
      && (s.nodes[k].timer.None? ==> b.states[before.value].edges[s.nodes[k].event] == CompleteEdge(s, s.nodes[k].event))
      && (s.nodes[k].timer.Some? ==>
        var after := b.states[before.value].edges[s.nodes[k].event].newState;
        && 0 < after < |b.states| && b.states[after].timer ==
           Some(if IsMinimum(s.nodes[k].timer) then CompleteTimer(s) else Fallback(s.behavior, Word(s))))
  {
    var s := seqs[m];
    var k := |s.nodes| - 1;
    SequenceApproach(b, l, seqs, m, k);
    var cur := SequenceEdge(b, l, seqs, m, k);
    if s.nodes[k].timer.Some? {
      var _, t := SequenceEntered(b, l, seqs, m, k);
      assert Word(s)[..k + 1] == Word(s);
    }
  }
}
