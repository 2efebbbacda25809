/** Which waits a layer may mix: acceptance where words are prefix-free but their timers need not agree. */
module Disagreements {
  import opened Options
  import opened Profiles
  import opened Automata
  import opened StateMachine
  import opened Trie
  import opened Acceptance

  // ---------- ways ----------

  /** An event on a way, and whether a minimum wait written behind it has been sat out. */
  datatype Stage = Stage(event: InputEvent, waited: bool)

  type Way = seq<Stage>

  /** Where `s` stands before its event number `d`: the events so far, with the minimum waits between them. */
  function Stand(s: Sequence, d: nat): Way
    requires d <= |s.nodes|
  {
    if d == 0 then [] else Stand(s, d - 1) + [Stage(s.nodes[d - 1].event, IsMinimum(s.nodes[d - 1].timer))]
  }

  /** Where event `d - 1` of `s` leads. */
  function Enter(s: Sequence, d: nat): (way: Way)
    requires 0 < d <= |s.nodes|
    ensures way != [] && !way[|way| - 1].waited
  {
    Stand(s, d - 1) + [Stage(s.nodes[d - 1].event, false)]
  }

  /** Both sequences come to the same place with event number `d`. */
  predicate Meet(a: Sequence, b: Sequence, d: nat) {
    0 < d <= |a.nodes| && d <= |b.nodes| && Enter(a, d) == Enter(b, d)
  }

  lemma SameStand(a: Sequence, b: Sequence, d: nat)
    requires Meet(a, b, d)
    ensures Stand(a, d - 1) == Stand(b, d - 1) && a.nodes[d - 1].event == b.nodes[d - 1].event
  {
    var x, y := Enter(a, d), Enter(b, d);
    assert x[..|x| - 1] == Stand(a, d - 1) && y[..|y| - 1] == Stand(b, d - 1);
    assert x[|x| - 1].event == a.nodes[d - 1].event && y[|y| - 1].event == b.nodes[d - 1].event;
  }

  lemma {:induction false} StandLength(s: Sequence, d: nat)
    requires d <= |s.nodes|
    ensures |Stand(s, d)| == d
    decreases d
  {
    if d > 0 {
      StandLength(s, d - 1);
    }
  }

  /** Sequences meet where their words agree and the waits sat out before are minimum waits in both or in neither. */
  predicate SameWay(a: Sequence, b: Sequence, d: nat) {
    SharePrefix(a, b, d) &&
    forall i :: 0 <= i < d - 1 ==> IsMinimum(a.nodes[i].timer) == IsMinimum(b.nodes[i].timer)
  }

  predicate SameStages(a: Sequence, b: Sequence, d: nat) {
    && d <= |a.nodes| && d <= |b.nodes|
    && forall i :: 0 <= i < d ==>
      a.nodes[i].event == b.nodes[i].event && IsMinimum(a.nodes[i].timer) == IsMinimum(b.nodes[i].timer)
  }

  lemma {:induction false} StandStages(a: Sequence, b: Sequence, d: nat)
    requires d <= |a.nodes| && d <= |b.nodes|
    ensures Stand(a, d) == Stand(b, d) <==> SameStages(a, b, d)
    decreases d
  {
    if d > 0 {
      var x, y := Stand(a, d), Stand(b, d);
      StandStages(a, b, d - 1);
      assert x[..|x| - 1] == Stand(a, d - 1) && y[..|y| - 1] == Stand(b, d - 1);
      assert x[|x| - 1] == Stage(a.nodes[d - 1].event, IsMinimum(a.nodes[d - 1].timer));
      assert y[|y| - 1] == Stage(b.nodes[d - 1].event, IsMinimum(b.nodes[d - 1].timer));
    }
  }

  lemma MeetExactly(a: Sequence, b: Sequence, d: nat)
    ensures Meet(a, b, d) <==> SameWay(a, b, d)
  {
    if 0 < d <= |a.nodes| && d <= |b.nodes| {
      StandStages(a, b, d - 1);
      if Meet(a, b, d) {
        SameStand(a, b, d);
        assert forall i :: 0 <= i < d ==> a.nodes[i].event == b.nodes[i].event;
      }
      if SameWay(a, b, d) {
        assert forall i :: 0 <= i < d ==> Word(a)[..d][i] == a.nodes[i].event && Word(b)[..d][i] == b.nodes[i].event;
      }
    }
  }

  // ---------- layers, as a user can read them ----------

  /** No trigger word begins with another. Nothing is said about waits. */
  predicate Unnested(seqs: seq<Sequence>) {
    forall i, j {:trigger NestedIn(seqs[i], seqs[j])} ::
      0 <= i < |seqs| && 0 <= j < |seqs| && i != j ==> !NestedIn(seqs[i], seqs[j])
  }

  /** Sequence `o` is the first of those that come to this place. */
  predicate First(seqs: seq<Sequence>, o: nat, s: Sequence, d: nat) {
    && o < |seqs| && Meet(seqs[o], s, d)
    && forall m :: 0 <= m < o ==> !Meet(seqs[m], s, d)
  }

  predicate Apart(a: Option<Timer>, b: Option<Timer>) {
    a.Some? && b.Some? && a != b
  }

  /** Behind event `d - 1` sequence `n` has a wait that differs from the one that the first sequence there has. */
  predicate Disagrees(seqs: seq<Sequence>, n: nat, d: nat) {
    n < |seqs| && 0 < d <= |seqs[n].nodes| &&
    exists o: nat :: o < n && First(seqs, o, seqs[n], d) && Apart(seqs[o].nodes[d - 1].timer, seqs[n].nodes[d - 1].timer)
  }

  /** Behind one event one sequence waits at most and the other at least so long. */
  predicate Opposed(a: Sequence, b: Sequence, d: nat) {
    Meet(a, b, d) && IsMaximum(a.nodes[d - 1].timer) && IsMinimum(b.nodes[d - 1].timer)
  }

  ghost predicate FirstWaits(seqs: seq<Sequence>, s: Sequence, d: nat) {
    exists o: nat :: First(seqs, o, s, d) && seqs[o].nodes[d - 1].timer.Some?
  }

  /** Where an earlier sequence waits at most and a later one at least so long, the first sequence there waits, too. */
  ghost predicate NoWaitCut(seqs: seq<Sequence>) {
    forall m: nat, n: nat, d: nat {:trigger Opposed(seqs[m], seqs[n], d)} ::
      m < n < |seqs| && Opposed(seqs[m], seqs[n], d) ==> FirstWaits(seqs, seqs[n], d)
  }

  predicate IsMaximum(timer: Option<Timer>) {
    timer.Some? && timer.value.MaximumWait?
  }

  ghost predicate Regular(seqs: seq<Sequence>) {
    Unnested(seqs) && BehaviorsAgree(seqs) && NoWaitCut(seqs)
  }

  lemma MeetsOn(a: Sequence, b: Sequence, c: Sequence, d: nat)
    requires Meet(a, b, d) && Meet(b, c, d)
    ensures Meet(a, c, d) && Meet(b, a, d)
  {
  }

  lemma SameFirst(seqs: seq<Sequence>, o: nat, a: Sequence, o': nat, b: Sequence, d: nat)
    requires First(seqs, o, a, d) && First(seqs, o', b, d) && Meet(a, b, d)
    ensures o == o'
  {
    MeetsOn(seqs[o], a, b, d);
    MeetsOn(seqs[o'], b, a, d);
  }

  lemma AllShared(a: Sequence, b: Sequence)
    requires SharePrefix(a, b, |a.nodes|)
    ensures NestedIn(a, b)
  {
    assert Word(a) == Word(a)[..|a.nodes|];
  }

  /** Where different sequences of such a layer meet, both go on. */
  lemma BothGoOn(seqs: seq<Sequence>, m: nat, n: nat, d: nat)
    requires Unnested(seqs) && m < |seqs| && n < |seqs| && m != n && Meet(seqs[m], seqs[n], d)
    ensures d < |seqs[m].nodes| && d < |seqs[n].nodes|
  {
    MeetExactly(seqs[m], seqs[n], d);
    if d == |seqs[m].nodes| {
      AllShared(seqs[m], seqs[n]);
    } else if d == |seqs[n].nodes| {
      AllShared(seqs[n], seqs[m]);
    }
  }

  lemma BehaveAlike(seqs: seq<Sequence>, m: nat, n: nat, d: nat)
    requires BehaviorsAgree(seqs) && m < n < |seqs| && Meet(seqs[m], seqs[n], d)
    ensures seqs[m].behavior == seqs[n].behavior
  {
    MeetExactly(seqs[m], seqs[n], d);
    assert Word(seqs[m])[..d][0] == Word(seqs[n])[..d][0];
  }

  // ---------- where the construction has got to ----------

  /** For each state its place, the first sequence that came there, and the way back from places to states. */
  datatype Chart = Chart(places: seq<Way>, owner: seq<nat>, index: map<Way, nat>)

  ghost predicate Charted(b: Build, t: Chart) {
    && ValidBuild(b) && |t.places| == |t.owner| == |b.states| && t.places[HOME_STATE_IDX] == []
    && (forall j :: 0 <= j < |t.places| ==> t.places[j] in t.index && t.index[t.places[j]] == j)
    && (forall x :: x in t.index ==> t.index[x] < |t.places| && t.places[t.index[x]] == x)
  }

  /** A state that an event leads to, and not a minimum wait. */
  predicate Entered(way: Way) {
    way != [] && !way[|way| - 1].waited
  }

  /** The edge for event `d - 1` of `s` is there, and leads on unless the sequence ends. */
  ghost predicate EdgeIn(b: Build, t: Chart, s: Sequence, d: nat)
    requires Charted(b, t) && 0 < d <= |s.nodes|
  {
    && Stand(s, d - 1) in t.index
    && var edges := b.states[t.index[Stand(s, d - 1)]].edges;
    && s.nodes[d - 1].event in edges
    && (!IsLast(s, d - 1) ==> Enter(s, d) in t.index && edges[s.nodes[d - 1].event].newState == t.index[Enter(s, d)])
  }

  ghost predicate EdgesIn(b: Build, t: Chart, seqs: seq<Sequence>, n: nat, k: nat)
    requires Charted(b, t)
  {
    forall m: nat, d: nat {:trigger Inserted(seqs, n, k, m, d)} :: Inserted(seqs, n, k, m, d) ==> EdgeIn(b, t, seqs[m], d)
  }

  /** Sequence `m` has an event of this kind at this place. */
  predicate Calls(seqs: seq<Sequence>, n: nat, k: nat, m: nat, place: Way) {
    Inserted(seqs, n, k, m, |place|) && Enter(seqs[m], |place|) == place
  }

  ghost predicate EdgeFrom(t: Chart, seqs: seq<Sequence>, n: nat, k: nat, j: nat, e: InputEvent)
    requires j < |t.places|
  {
    exists m: nat :: Calls(seqs, n, k, m, t.places[j] + [Stage(e, false)])
  }

  ghost predicate EdgesFrom(b: Build, t: Chart, seqs: seq<Sequence>, n: nat, k: nat)
    requires Charted(b, t)
  {
    forall j, e {:trigger EdgeFrom(t, seqs, n, k, j, e)} ::
      0 <= j < |b.states| && e in b.states[j].edges ==> EdgeFrom(t, seqs, n, k, j, e)
  }

  /** A state that an event leads to has the metadata of the first sequence that came there. */
  ghost predicate OwnerOk(b: Build, t: Chart, seqs: seq<Sequence>, n: nat, k: nat, j: nat)
    requires Charted(b, t) && j < |b.states|
  {
    var m, d := t.owner[j], |t.places[j]|;
    Entered(t.places[j]) ==>
      && Calls(seqs, n, k, m, t.places[j]) && First(seqs, m, seqs[m], d)
      && b.metadata[j] == StateMetadata(seqs[m].nodes[d - 1].timer, seqs[m].behavior)
  }

  ghost predicate OwnersOk(b: Build, t: Chart, seqs: seq<Sequence>, n: nat, k: nat)
    requires Charted(b, t)
  {
    forall j {:trigger OwnerOk(b, t, seqs, n, k, j)} :: 0 <= j < |b.states| ==> OwnerOk(b, t, seqs, n, k, j)
  }

  /** A minimum wait with more to come. */
  predicate SitsOut(s: Sequence, d: nat) {
    0 < d < |s.nodes| && IsMinimum(s.nodes[d - 1].timer)
  }

  ghost predicate WaitIn(b: Build, t: Chart, s: Sequence, d: nat)
    requires Charted(b, t) && 0 < d <= |s.nodes|
  {
    && Enter(s, d) in t.index && Stand(s, d) in t.index
    && var timer := b.states[t.index[Enter(s, d)]].timer;
    && timer.Some? && timer.value.newState == t.index[Stand(s, d)]
  }

  ghost predicate WaitsIn(b: Build, t: Chart, seqs: seq<Sequence>, n: nat, k: nat)
    requires Charted(b, t)
  {
    forall m: nat, d: nat {:trigger Inserted(seqs, n, k, m, d)} ::
      Inserted(seqs, n, k, m, d) && SitsOut(seqs[m], d) ==> WaitIn(b, t, seqs[m], d)
  }

  /** A wait that leads home: a maximum wait, or one at the end of a sequence. */
  predicate CutsShort(s: Sequence, d: nat) {
    0 < d <= |s.nodes| && s.nodes[d - 1].timer.Some? && (IsMaximum(s.nodes[d - 1].timer) || d == |s.nodes|)
  }

  /** A timer transition that leads home was hung by such a wait; any other leads to where the minimum wait is over. */
  ghost predicate TimerFrom(b: Build, t: Chart, seqs: seq<Sequence>, n: nat, k: nat, j: nat)
    requires Charted(b, t) && j < |b.states|
  {
    b.states[j].timer.Some? ==>
      Entered(t.places[j]) &&
      var next := b.states[j].timer.value.newState;
      if next == HOME_STATE_IDX then exists m: nat :: Calls(seqs, n, k, m, t.places[j]) && CutsShort(seqs[m], |t.places[j]|)
      else next < |t.places| && t.places[next] == Over(t.places[j])
  }

  /** The place behind the minimum wait. */
  function Over(way: Way): Way
    requires way != []
  {
    way[..|way| - 1] + [way[|way| - 1].(waited := true)]
  }

  ghost predicate TimersFrom(b: Build, t: Chart, seqs: seq<Sequence>, n: nat, k: nat)
    requires Charted(b, t)
  {
    forall j {:trigger TimerFrom(b, t, seqs, n, k, j)} :: 0 <= j < |b.states| ==> TimerFrom(b, t, seqs, n, k, j)
  }

  /** A state behind a minimum wait is there because some sequence sits one out. */
  ghost predicate WaitedFrom(t: Chart, seqs: seq<Sequence>, n: nat, k: nat, j: nat)
    requires j < |t.places|
  {
    t.places[j] != [] && !Entered(t.places[j]) ==>
      exists m: nat :: Inserted(seqs, n, k, m, |t.places[j]|) && SitsOut(seqs[m], |t.places[j]|) &&
        Stand(seqs[m], |t.places[j]|) == t.places[j]
  }

  ghost predicate AllWaitedFrom(t: Chart, seqs: seq<Sequence>, n: nat, k: nat) {
    forall j {:trigger WaitedFrom(t, seqs, n, k, j)} :: 0 <= j < |t.places| ==> WaitedFrom(t, seqs, n, k, j)
  }

  /** Edges and states of the first `n` sequences and `k` nodes of the next one. */
  ghost predicate EdgesRight(b: Build, t: Chart, seqs: seq<Sequence>, n: nat, k: nat) {
    Charted(b, t) && EdgesIn(b, t, seqs, n, k) && EdgesFrom(b, t, seqs, n, k) && OwnersOk(b, t, seqs, n, k)
  }

  /** And their waits. */
  ghost predicate WaitsRight(b: Build, t: Chart, seqs: seq<Sequence>, n: nat, k: nat) {
    Charted(b, t) && WaitsIn(b, t, seqs, n, k) && TimersFrom(b, t, seqs, n, k) && AllWaitedFrom(t, seqs, n, k)
  }

  ghost predicate Stands(t: Chart, s: Sequence, k: nat, cur: nat) {
    k < |s.nodes| ==> Stand(s, k) in t.index && t.index[Stand(s, k)] == cur
  }

  /** Nothing has disagreed so far. */
  ghost predicate AllAgree(seqs: seq<Sequence>, n: nat, k: nat) {
    forall m: nat, d: nat {:trigger Disagrees(seqs, m, d)} :: Inserted(seqs, n, k, m, d) ==> !Disagrees(seqs, m, d)
  }

  // ---------- one trigger ----------

  ghost predicate Here(b: Build, t: Chart, seqs: seq<Sequence>, n: nat, k: nat, cur: nat) {
    && n < |seqs| && k < |seqs[n].nodes|
    && EdgesRight(b, t, seqs, n, k) && Stands(t, seqs[n], k, cur)
  }

  /** An edge for the next event means that an earlier sequence comes to the same place. */
  lemma EdgeMeets(b: Build, t: Chart, seqs: seq<Sequence>, n: nat, k: nat, cur: nat) returns (m: nat)
    requires Here(b, t, seqs, n, k, cur) && cur < |b.states| && seqs[n].nodes[k].event in b.states[cur].edges
    ensures m < n && Meet(seqs[m], seqs[n], k + 1)
  {
    var s, e := seqs[n], seqs[n].nodes[k].event;
    assert EdgeFrom(t, seqs, n, k, cur, e);
    StandLength(s, k);
    m :| Calls(seqs, n, k, m, t.places[cur] + [Stage(e, false)]);
  }

  /** And an earlier sequence that does has left its edge. */
  lemma MeetsEdge(b: Build, t: Chart, seqs: seq<Sequence>, n: nat, k: nat, cur: nat, m: nat)
    requires Here(b, t, seqs, n, k, cur) && m < n && Meet(seqs[m], seqs[n], k + 1)
    ensures cur < |b.states| && seqs[n].nodes[k].event in b.states[cur].edges
    ensures !IsLast(seqs[m], k) ==>
      && Enter(seqs[n], k + 1) in t.index
      && b.states[cur].edges[seqs[n].nodes[k].event].newState == t.index[Enter(seqs[n], k + 1)]
  {
    SameStand(seqs[m], seqs[n], k + 1);
    assert Inserted(seqs, n, k, m, k + 1);
    assert EdgeIn(b, t, seqs[m], k + 1);
  }

  /** The state that the next event leads to. */
  lemma MetState(b: Build, t: Chart, seqs: seq<Sequence>, n: nat, k: nat, cur: nat, m: nat) returns (next: nat, o: nat)
    requires Unnested(seqs) && Here(b, t, seqs, n, k, cur) && m < n && Meet(seqs[m], seqs[n], k + 1)
    ensures cur < |b.states| && seqs[n].nodes[k].event in b.states[cur].edges
    ensures next == b.states[cur].edges[seqs[n].nodes[k].event].newState && 0 < next < |b.states|
    ensures t.places[next] == Enter(seqs[n], k + 1) && o < n && First(seqs, o, seqs[n], k + 1)
    ensures b.metadata[next] == StateMetadata(seqs[o].nodes[k].timer, seqs[o].behavior)
  {
    BothGoOn(seqs, m, n, k + 1);
    MeetsEdge(b, t, seqs, n, k, cur, m);
    StandLength(seqs[n], k);
    next := t.index[Enter(seqs[n], k + 1)];
    assert OwnerOk(b, t, seqs, n, k, next);
    o := t.owner[next];
    assert Meet(seqs[o], seqs[n], k + 1);
    assert First(seqs, o, seqs[n], k + 1);
  }

  /** The step is refused exactly where the wait differs from the first one written there. */
  lemma RefusedExactly(b: Build, t: Chart, seqs: seq<Sequence>, n: nat, k: nat, cur: nat)
    requires Unnested(seqs) && BehaviorsAgree(seqs) && Here(b, t, seqs, n, k, cur) && cur < |b.states|
    ensures InsertNode(b, seqs[n], k, cur).None? <==> Disagrees(seqs, n, k + 1)
  {
    var s := seqs[n];
    if s.nodes[k].event in b.states[cur].edges {
      var m := EdgeMeets(b, t, seqs, n, k, cur);
      BothGoOn(seqs, m, n, k + 1);
      var next, o := MetState(b, t, seqs, n, k, cur, m);
      BehaveAlike(seqs, o, n, k + 1);
      if Disagrees(seqs, n, k + 1) {
        var o': nat :| o' < n && First(seqs, o', s, k + 1) && Apart(seqs[o'].nodes[k].timer, s.nodes[k].timer);
        SameFirst(seqs, o, s, o', s, k + 1);
      }
    } else if Disagrees(seqs, n, k + 1) {
      var o: nat :| o < n && First(seqs, o, s, k + 1) && Apart(seqs[o].nodes[k].timer, s.nodes[k].timer);
      MeetsEdge(b, t, seqs, n, k, cur, o);
    }
  }

  // ---------- the edge of a trigger ----------

  /** `b'` is `b` with an edge on `e` added at `cur`, and perhaps new states without edges or timers. */
  ghost predicate EdgeAdded(b: Build, t: Chart, b': Build, t': Chart, cur: nat, e: InputEvent) {
    && Charted(b, t) && Charted(b', t') && cur < |b.states|
    && t.places <= t'.places && t.owner <= t'.owner && b.metadata <= b'.metadata
    && e !in b.states[cur].edges && e in b'.states[cur].edges
    && b'.states[cur].edges == b.states[cur].edges[e := b'.states[cur].edges[e]]
    && (forall j :: 0 <= j < |b.states| && j != cur ==> b'.states[j].edges == b.states[j].edges)
    && (forall j :: 0 <= j < |b.states| ==> b'.states[j].timer == b.states[j].timer)
    && (forall j :: |b.states| <= j < |b'.states| ==> b'.states[j].edges == map[] && b'.states[j].timer.None?)
  }

  /** What was charted stays charted. */
  lemma StillCharted(b: Build, t: Chart, b': Build, t': Chart, way: Way)
    requires Charted(b, t) && Charted(b', t') && t.places <= t'.places && way in t.index
    ensures way in t'.index && t'.index[way] == t.index[way]
  {
    assert t'.places[t.index[way]] == way;
  }

  lemma EdgeInKept(b: Build, t: Chart, b': Build, t': Chart, cur: nat, e: InputEvent, s: Sequence, d: nat)
    requires EdgeAdded(b, t, b', t', cur, e) && 0 < d <= |s.nodes| && EdgeIn(b, t, s, d)
    ensures EdgeIn(b', t', s, d)
  {
    StillCharted(b, t, b', t', Stand(s, d - 1));
    if !IsLast(s, d - 1) {
      StillCharted(b, t, b', t', Enter(s, d));
    }
  }

  /** The edge added for node `k` of sequence `n`, and the state it leads to. */
  ghost predicate EdgeNew(b: Build, b': Build, t': Chart, seqs: seq<Sequence>, n: nat, k: nat)
    requires Charted(b', t') && n < |seqs| && k < |seqs[n].nodes|
  {
    && EdgeIn(b', t', seqs[n], k + 1)
    && forall j :: |b.states| <= j < |b'.states| ==>
      && t'.places[j] == Enter(seqs[n], k + 1) && t'.owner[j] == n
      && b'.metadata[j] == StateMetadata(seqs[n].nodes[k].timer, seqs[n].behavior)
  }

  lemma EdgeAddedEdgesIn(b: Build, t: Chart, b': Build, t': Chart, cur: nat, e: InputEvent, seqs: seq<Sequence>, n: nat, k: nat)
    requires EdgeAdded(b, t, b', t', cur, e) && n < |seqs| && k < |seqs[n].nodes| && EdgesIn(b, t, seqs, n, k)
    requires EdgeIn(b', t', seqs[n], k + 1)
    ensures EdgesIn(b', t', seqs, n, k + 1)
  {
    forall m: nat, d: nat | Inserted(seqs, n, k + 1, m, d)
      ensures EdgeIn(b', t', seqs[m], d)
    {
      if !(m == n && d == k + 1) {
        assert Inserted(seqs, n, k, m, d);
        EdgeInKept(b, t, b', t', cur, e, seqs[m], d);
      }
    }
  }

  lemma EdgeAddedEdgesFrom(b: Build, t: Chart, b': Build, t': Chart, cur: nat, e: InputEvent, seqs: seq<Sequence>, n: nat,
                           k: nat)
    requires EdgeAdded(b, t, b', t', cur, e) && Here(b, t, seqs, n, k, cur) && e == seqs[n].nodes[k].event
    ensures EdgesFrom(b', t', seqs, n, k + 1)
  {
    forall j, e' | 0 <= j < |b'.states| && e' in b'.states[j].edges
      ensures EdgeFrom(t', seqs, n, k + 1, j, e')
    {
      StandLength(seqs[n], k);
      if j == cur && e' == e {
        assert Calls(seqs, n, k + 1, n, t'.places[j] + [Stage(e', false)]);
      } else {
        assert EdgeFrom(t, seqs, n, k, j, e');
        var m: nat :| Calls(seqs, n, k, m, t.places[j] + [Stage(e', false)]);
        assert Calls(seqs, n, k + 1, m, t'.places[j] + [Stage(e', false)]);
      }
    }
  }

  /** Without an edge for its next event, sequence `n` is the first to come there. */
  lemma FirstThere(b: Build, t: Chart, seqs: seq<Sequence>, n: nat, k: nat, cur: nat)
    requires Here(b, t, seqs, n, k, cur) && cur < |b.states| && seqs[n].nodes[k].event !in b.states[cur].edges
    ensures First(seqs, n, seqs[n], k + 1)
  {
    forall m | 0 <= m < n
      ensures !Meet(seqs[m], seqs[n], k + 1)
    {
      if Meet(seqs[m], seqs[n], k + 1) {
        MeetsEdge(b, t, seqs, n, k, cur, m);
      }
    }
  }

  lemma EdgeAddedOwners(b: Build, t: Chart, b': Build, t': Chart, seqs: seq<Sequence>, n: nat, k: nat, k': nat)
    requires Charted(b, t) && Charted(b', t') && t.places <= t'.places && t.owner <= t'.owner && b.metadata <= b'.metadata
    requires OwnersOk(b, t, seqs, n, k) && n < |seqs| && k < |seqs[n].nodes| && k' == k + 1
    requires EdgeNew(b, b', t', seqs, n, k) && First(seqs, n, seqs[n], k')
    ensures OwnersOk(b', t', seqs, n, k')
  {
    forall j | 0 <= j < |b'.states|
      ensures OwnerOk(b', t', seqs, n, k', j)
    {
      if j < |b.states| {
        assert OwnerOk(b, t, seqs, n, k, j);
      } else {
        StandLength(seqs[n], k);
      }
    }
  }

  lemma EdgeAddedRight(b: Build, t: Chart, b': Build, t': Chart, cur: nat, e: InputEvent, seqs: seq<Sequence>, n: nat, k: nat)
    requires EdgeAdded(b, t, b', t', cur, e) && Here(b, t, seqs, n, k, cur) && e == seqs[n].nodes[k].event
    requires EdgeNew(b, b', t', seqs, n, k)
    ensures EdgesRight(b', t', seqs, n, k + 1)
  {
    EdgeAddedEdgesIn(b, t, b', t', cur, e, seqs, n, k);
    EdgeAddedEdgesFrom(b, t, b', t', cur, e, seqs, n, k);
    FirstThere(b, t, seqs, n, k, cur);
    EdgeAddedOwners(b, t, b', t', seqs, n, k, k + 1);
  }

  /** A new edge leaves the waits as they are. */
  lemma EdgeAddedWaits(b: Build, t: Chart, b': Build, t': Chart, cur: nat, e: InputEvent, seqs: seq<Sequence>, n: nat, k: nat)
    requires EdgeAdded(b, t, b', t', cur, e) && WaitsRight(b, t, seqs, n, k)
    requires forall j :: |b.states| <= j < |b'.states| ==> Entered(t'.places[j])
    ensures WaitsRight(b', t', seqs, n, k)
  {
    forall m: nat, d: nat | Inserted(seqs, n, k, m, d)
      ensures SitsOut(seqs[m], d) ==> WaitIn(b', t', seqs[m], d)
    {
      if SitsOut(seqs[m], d) {
        assert WaitIn(b, t, seqs[m], d);
        StillCharted(b, t, b', t', Enter(seqs[m], d));
        StillCharted(b, t, b', t', Stand(seqs[m], d));
      }
    }
    forall j | 0 <= j < |b'.states|
      ensures TimerFrom(b', t', seqs, n, k, j) && WaitedFrom(t', seqs, n, k, j)
    {
      if j < |b.states| {
        assert TimerFrom(b, t, seqs, n, k, j) && WaitedFrom(t, seqs, n, k, j);
      }
    }
  }

  /** Following an edge that is there adds nothing. */
  lemma EdgeFollowed(b: Build, t: Chart, seqs: seq<Sequence>, n: nat, k: nat, cur: nat, m: nat)
    requires Unnested(seqs) && Here(b, t, seqs, n, k, cur) && m < n && Meet(seqs[m], seqs[n], k + 1)
    ensures EdgesRight(b, t, seqs, n, k + 1)
  {
    BothGoOn(seqs, m, n, k + 1);
    MeetsEdge(b, t, seqs, n, k, cur, m);
    forall m': nat, d: nat | Inserted(seqs, n, k + 1, m', d)
      ensures EdgeIn(b, t, seqs[m'], d)
    {
      if !(m' == n && d == k + 1) {
        assert Inserted(seqs, n, k, m', d);
      }
    }
    EdgesMore(b, t, seqs, n, k, n, k + 1);
  }

  /** Edges and owners stay right when more counts as inserted. */
  lemma EdgesMore(b: Build, t: Chart, seqs: seq<Sequence>, n: nat, k: nat, n': nat, k': nat)
    requires Charted(b, t) && EdgesFrom(b, t, seqs, n, k) && OwnersOk(b, t, seqs, n, k)
    requires n < n' || (n == n' && k <= k')
    ensures EdgesFrom(b, t, seqs, n', k') && OwnersOk(b, t, seqs, n', k')
  {
    forall j, e | 0 <= j < |b.states| && e in b.states[j].edges
      ensures EdgeFrom(t, seqs, n', k', j, e)
    {
      assert EdgeFrom(t, seqs, n, k, j, e);
      var m: nat :| Calls(seqs, n, k, m, t.places[j] + [Stage(e, false)]);
      assert Calls(seqs, n', k', m, t.places[j] + [Stage(e, false)]);
    }
    forall j | 0 <= j < |b.states|
      ensures OwnerOk(b, t, seqs, n', k', j)
    {
      assert OwnerOk(b, t, seqs, n, k, j);
    }
  }

  function Placed(t: Chart, place: Way, n: nat): Chart {
    Chart(t.places + [place], t.owner + [n], t.index[place := |t.places|])
  }

  /** Without an edge for the next event no state stands where it leads. */
  lemma NotYetPlaced(b: Build, t: Chart, seqs: seq<Sequence>, n: nat, k: nat, cur: nat)
    requires Unnested(seqs) && Here(b, t, seqs, n, k, cur) && cur < |b.states| && seqs[n].nodes[k].event !in b.states[cur].edges
    ensures Enter(seqs[n], k + 1) !in t.index
  {
    var place := Enter(seqs[n], k + 1);
    if place in t.index {
      var j := t.index[place];
      StandLength(seqs[n], k);
      assert OwnerOk(b, t, seqs, n, k, j);
      MeetsEdge(b, t, seqs, n, k, cur, t.owner[j]);
    }
  }

  /** The last trigger of a new word adds an edge home. */
  lemma LastEdge(b: Build, t: Chart, seqs: seq<Sequence>, n: nat, k: nat, cur: nat, b': Build)
    requires Unnested(seqs) && Here(b, t, seqs, n, k, cur) && cur < |b.states| && seqs[n].nodes[k].event !in b.states[cur].edges
    requires IsLast(seqs[n], k) && b' == SetEdge(b, cur, seqs[n].nodes[k].event, CompleteEdge(seqs[n], seqs[n].nodes[k].event))
    requires WaitsRight(b, t, seqs, n, k)
    ensures EdgesRight(b', t, seqs, n, k + 1) && WaitsRight(b', t, seqs, n, k)
  {
    var e := seqs[n].nodes[k].event;
    assert EdgeAdded(b, t, b', t, cur, e);
    assert EdgeNew(b, b', t, seqs, n, k);
    EdgeAddedRight(b, t, b', t, cur, e, seqs, n, k);
    EdgeAddedWaits(b, t, b', t, cur, e, seqs, n, k);
  }

  lemma FreshAdded(b: Build, t: Chart, seqs: seq<Sequence>, n: nat, k: nat, cur: nat, b': Build, t': Chart)
    requires Charted(b, t) && n < |seqs| && k < |seqs[n].nodes|
    requires cur < |b.states| && seqs[n].nodes[k].event !in b.states[cur].edges
    requires b' == WithNewState(b, seqs[n], k, cur) && t' == Placed(t, Enter(seqs[n], k + 1), n) && Charted(b', t')
    ensures EdgeAdded(b, t, b', t', cur, seqs[n].nodes[k].event) && |b'.states| == |b.states| + 1
  {
    var e := seqs[n].nodes[k].event;
    assert b'.states[cur].edges == b.states[cur].edges[e := b'.states[cur].edges[e]];
  }

  lemma FreshNew(b: Build, t: Chart, seqs: seq<Sequence>, n: nat, k: nat, cur: nat, b': Build, t': Chart)
    requires Here(b, t, seqs, n, k, cur) && cur < |b.states|
    requires b' == WithNewState(b, seqs[n], k, cur) && t' == Placed(t, Enter(seqs[n], k + 1), n) && Charted(b', t')
    ensures EdgeNew(b, b', t', seqs, n, k)
  {
    StillCharted(b, t, b', t', Stand(seqs[n], k));
  }

  /** Any other one adds a state and the edge to it. */
  lemma FreshEdge(b: Build, t: Chart, seqs: seq<Sequence>, n: nat, k: nat, cur: nat, b': Build, t': Chart)
    requires Unnested(seqs) && Here(b, t, seqs, n, k, cur) && cur < |b.states| && seqs[n].nodes[k].event !in b.states[cur].edges
    requires !IsLast(seqs[n], k) && b' == WithNewState(b, seqs[n], k, cur) && t' == Placed(t, Enter(seqs[n], k + 1), n)
    requires WaitsRight(b, t, seqs, n, k)
    ensures EdgesRight(b', t', seqs, n, k + 1) && WaitsRight(b', t', seqs, n, k)
    ensures Enter(seqs[n], k + 1) in t'.index && t'.index[Enter(seqs[n], k + 1)] == |b.states|
  {
    var s, e := seqs[n], seqs[n].nodes[k].event;
    NotYetPlaced(b, t, seqs, n, k, cur);
    PlacedCharted(b, t, Enter(s, k + 1), n, b');
    FreshAdded(b, t, seqs, n, k, cur, b', t');
    FreshNew(b, t, seqs, n, k, cur, b', t');
    EdgeAddedRight(b, t, b', t', cur, e, seqs, n, k);
    EdgeAddedWaits(b, t, b', t', cur, e, seqs, n, k);
  }

  lemma PlacedCharted(b: Build, t: Chart, place: Way, n: nat, b': Build)
    requires Charted(b, t) && place !in t.index && ValidBuild(b') && |b'.states| == |b.states| + 1
    ensures Charted(b', Placed(t, place, n))
  {
  }

  // ---------- the wait behind it ----------

  /** The state `next` that event `k` leads to, before its wait is hung on it. */
  ghost predicate Hangs(b: Build, t: Chart, seqs: seq<Sequence>, n: nat, k: nat, next: nat) {
    && n < |seqs| && k < |seqs[n].nodes| && !IsLast(seqs[n], k)
    && EdgesRight(b, t, seqs, n, k + 1) && WaitsRight(b, t, seqs, n, k)
    && Enter(seqs[n], k + 1) in t.index && t.index[Enter(seqs[n], k + 1)] == next
  }

  /** Everything but the timer of state `next` is as before, and perhaps a state is added behind it. */
  ghost predicate TimerHung(b: Build, t: Chart, b': Build, t': Chart, next: nat) {
    && Charted(b, t) && Charted(b', t') && next < |b.states|
    && t.places <= t'.places && t.owner <= t'.owner && b.metadata <= b'.metadata
    && b.states[next].timer.None?
    && (forall j :: 0 <= j < |b.states| ==> b'.states[j].edges == b.states[j].edges)
    && (forall j :: 0 <= j < |b.states| && j != next ==> b'.states[j].timer == b.states[j].timer)
    && (forall j :: |b.states| <= j < |b'.states| ==>
         b'.states[j].edges == map[] && b'.states[j].timer.None? && t'.places[j] != [] && !Entered(t'.places[j]))
  }

  lemma TimerHungEdgesIn(b: Build, t: Chart, b': Build, t': Chart, next: nat, seqs: seq<Sequence>, n: nat, k: nat)
    requires TimerHung(b, t, b', t', next) && EdgesIn(b, t, seqs, n, k)
    ensures EdgesIn(b', t', seqs, n, k)
  {
    forall m: nat, d: nat | Inserted(seqs, n, k, m, d)
      ensures EdgeIn(b', t', seqs[m], d)
    {
      assert EdgeIn(b, t, seqs[m], d);
      StillCharted(b, t, b', t', Stand(seqs[m], d - 1));
      if !IsLast(seqs[m], d - 1) {
        StillCharted(b, t, b', t', Enter(seqs[m], d));
      }
    }
  }

  lemma TimerHungEdgesFrom(b: Build, t: Chart, b': Build, t': Chart, next: nat, seqs: seq<Sequence>, n: nat, k: nat)
    requires TimerHung(b, t, b', t', next) && EdgesFrom(b, t, seqs, n, k)
    ensures EdgesFrom(b', t', seqs, n, k)
  {
    forall j, e | 0 <= j < |b'.states| && e in b'.states[j].edges
      ensures EdgeFrom(t', seqs, n, k, j, e)
    {
      assert EdgeFrom(t, seqs, n, k, j, e);
      var m: nat :| Calls(seqs, n, k, m, t.places[j] + [Stage(e, false)]);
      assert Calls(seqs, n, k, m, t'.places[j] + [Stage(e, false)]);
    }
  }

  lemma TimerHungEdges(b: Build, t: Chart, b': Build, t': Chart, next: nat, seqs: seq<Sequence>, n: nat, k: nat)
    requires TimerHung(b, t, b', t', next) && EdgesRight(b, t, seqs, n, k)
    ensures EdgesRight(b', t', seqs, n, k)
  {
    TimerHungEdgesIn(b, t, b', t', next, seqs, n, k);
    TimerHungEdgesFrom(b, t, b', t', next, seqs, n, k);
    forall j | 0 <= j < |b'.states|
      ensures OwnerOk(b', t', seqs, n, k, j)
    {
      if j < |b.states| {
        assert OwnerOk(b, t, seqs, n, k, j);
      }
    }
  }

  lemma TimerHungWaits(b: Build, t: Chart, b': Build, t': Chart, next: nat, seqs: seq<Sequence>, n: nat, k: nat,
                       k': nat)
    requires TimerHung(b, t, b', t', next) && Hangs(b, t, seqs, n, k, next) && k' == k + 1
    requires SitsOut(seqs[n], k + 1) ==> WaitIn(b', t', seqs[n], k + 1)
    requires TimerFrom(b', t', seqs, n, k', next)
    requires forall j :: |b.states| <= j < |b'.states| ==> WaitedFrom(t', seqs, n, k', j)
    ensures WaitsRight(b', t', seqs, n, k')
  {
    forall m: nat, d: nat | Inserted(seqs, n, k', m, d)
      ensures SitsOut(seqs[m], d) ==> WaitIn(b', t', seqs[m], d)
    {
      if SitsOut(seqs[m], d) && !(m == n && d == k') {
        assert Inserted(seqs, n, k, m, d);
        assert WaitIn(b, t, seqs[m], d);
        StillCharted(b, t, b', t', Enter(seqs[m], d));
        StillCharted(b, t, b', t', Stand(seqs[m], d));
      }
    }
    TimersMore(b, t, b', t', next, seqs, n, k, n, k');
  }

  lemma TimersMore(b: Build, t: Chart, b': Build, t': Chart, next: nat, seqs: seq<Sequence>, n: nat, k: nat, n': nat, k': nat)
    requires TimerHung(b, t, b', t', next) && TimersFrom(b, t, seqs, n, k) && AllWaitedFrom(t, seqs, n, k)
    requires n < n' || (n == n' && k <= k')
    requires TimerFrom(b', t', seqs, n', k', next)
    requires forall j :: |b.states| <= j < |b'.states| ==> WaitedFrom(t', seqs, n', k', j)
    ensures TimersFrom(b', t', seqs, n', k') && AllWaitedFrom(t', seqs, n', k')
  {
    forall j | 0 <= j < |b'.states|
      ensures TimerFrom(b', t', seqs, n', k', j)
    {
      if j < |b.states| && j != next {
        assert TimerFrom(b, t, seqs, n, k, j);
        TimerMore(b, t, b', t', seqs, n, k, n', k', j);
      }
    }
    forall j | 0 <= j < |b'.states|
      ensures WaitedFrom(t', seqs, n', k', j)
    {
      if j < |b.states| {
        assert WaitedFrom(t, seqs, n, k, j);
      }
    }
  }

  lemma TimerMore(b: Build, t: Chart, b': Build, t': Chart, seqs: seq<Sequence>, n: nat, k: nat, n': nat, k': nat, j: nat)
    requires Charted(b, t) && Charted(b', t') && t.places <= t'.places && j < |b.states| && b'.states[j].timer == b.states[j].timer
    requires TimerFrom(b, t, seqs, n, k, j) && (n < n' || (n == n' && k <= k'))
    ensures TimerFrom(b', t', seqs, n', k', j)
  {
    if b.states[j].timer.Some? && b.states[j].timer.value.newState == HOME_STATE_IDX {
      var m: nat :| Calls(seqs, n, k, m, t.places[j]) && CutsShort(seqs[m], |t.places[j]|);
      assert Calls(seqs, n', k', m, t'.places[j]);
    }
  }

  /** Waits stay right when more counts as inserted and that is right. */
  lemma WaitsMore(b: Build, t: Chart, seqs: seq<Sequence>, n: nat, k: nat, k': nat)
    requires WaitsRight(b, t, seqs, n, k) && k' == k + 1 && n < |seqs| && k < |seqs[n].nodes|
    requires SitsOut(seqs[n], k') ==> WaitIn(b, t, seqs[n], k')
    ensures WaitsRight(b, t, seqs, n, k')
  {
    forall m: nat, d: nat | Inserted(seqs, n, k', m, d)
      ensures SitsOut(seqs[m], d) ==> WaitIn(b, t, seqs[m], d)
    {
      if !(m == n && d == k') {
        assert Inserted(seqs, n, k, m, d);
      }
    }
    forall j | 0 <= j < |b.states|
      ensures TimerFrom(b, t, seqs, n, k', j) && WaitedFrom(t, seqs, n, k', j)
    {
      assert TimerFrom(b, t, seqs, n, k, j) && WaitedFrom(t, seqs, n, k, j);
      TimerMore(b, t, b, t, seqs, n, k, n, k', j);
    }
  }

  /** A minimum wait with more to come finds no timer that leads home. */
  lemma NotCutShort(b: Build, t: Chart, seqs: seq<Sequence>, n: nat, k: nat, next: nat)
    requires Regular(seqs) && Hangs(b, t, seqs, n, k, next) && AllAgree(seqs, n, k + 1)
    requires SitsOut(seqs[n], k + 1) && b.states[next].timer.Some?
    ensures b.states[next].timer.value.newState != HOME_STATE_IDX
  {
    assert TimerFrom(b, t, seqs, n, k, next);
    StandLength(seqs[n], k);
    if b.states[next].timer.value.newState == HOME_STATE_IDX {
      var m: nat :| Calls(seqs, n, k, m, t.places[next]) && CutsShort(seqs[m], |t.places[next]|);
      assert Inserted(seqs, n, k + 1, n, k + 1) && Inserted(seqs, n, k + 1, m, k + 1);
      OpposedWaits(seqs, m, n, k + 1);
    }
  }

  /** Two waits behind one event that all agree on are not one of each kind. */
  lemma OpposedWaits(seqs: seq<Sequence>, m: nat, n: nat, d: nat)
    requires Regular(seqs) && m < n < |seqs| && Meet(seqs[m], seqs[n], d) && CutsShort(seqs[m], d) && SitsOut(seqs[n], d)
    ensures Disagrees(seqs, m, d) || Disagrees(seqs, n, d)
  {
    BothGoOn(seqs, m, n, d);
    assert Opposed(seqs[m], seqs[n], d);
    assert FirstWaits(seqs, seqs[n], d);
    var o: nat :| First(seqs, o, seqs[n], d) && seqs[o].nodes[d - 1].timer.Some?;
    MeetsOn(seqs[m], seqs[n], seqs[m], d);
    assert First(seqs, o, seqs[m], d);
    if IsMinimum(seqs[o].nodes[d - 1].timer) {
      assert Apart(seqs[o].nodes[d - 1].timer, seqs[m].nodes[d - 1].timer);
    } else {
      assert Apart(seqs[o].nodes[d - 1].timer, seqs[n].nodes[d - 1].timer);
    }
  }

  lemma StandOver(s: Sequence, d: nat)
    requires 0 < d <= |s.nodes|
    ensures Stand(s, d) == if IsMinimum(s.nodes[d - 1].timer) then Over(Enter(s, d)) else Enter(s, d)
  {
  }

  /** A maximum wait, or a minimum wait at the end, hangs a transition home. */
  lemma HungHome(b: Build, t: Chart, seqs: seq<Sequence>, n: nat, k: nat, next: nat, transition: Transition, b': Build)
    requires Hangs(b, t, seqs, n, k, next) && b.states[next].timer.None? && CutsShort(seqs[n], k + 1)
    requires transition.newState == HOME_STATE_IDX && b' == SetTimer(b, next, transition)
    ensures EdgesRight(b', t, seqs, n, k + 1) && WaitsRight(b', t, seqs, n, k + 1)
  {
    StandLength(seqs[n], k);
    assert TimerHung(b, t, b', t, next);
    assert Calls(seqs, n, k + 1, n, t.places[next]);
    TimerHungEdges(b, t, b', t, next, seqs, n, k + 1);
    TimerHungWaits(b, t, b', t, next, seqs, n, k, k + 1);
  }

  /** The place behind a wait that no sequence has sat out is new. */
  lemma NotYetOver(b: Build, t: Chart, seqs: seq<Sequence>, n: nat, k: nat, next: nat)
    requires Hangs(b, t, seqs, n, k, next) && b.states[next].timer.None? && SitsOut(seqs[n], k + 1)
    ensures Stand(seqs[n], k + 1) !in t.index
  {
    var place := Stand(seqs[n], k + 1);
    if place in t.index {
      var j := t.index[place];
      StandLength(seqs[n], k + 1);
      assert WaitedFrom(t, seqs, n, k, j);
      var m: nat :| Inserted(seqs, n, k, m, |place|) && SitsOut(seqs[m], |place|) && Stand(seqs[m], |place|) == place;
      StandsEnter(seqs[m], seqs[n], k + 1);
      SatOut(b, t, seqs, n, k, next, m);
    }
  }

  lemma SatOut(b: Build, t: Chart, seqs: seq<Sequence>, n: nat, k: nat, next: nat, m: nat)
    requires Hangs(b, t, seqs, n, k, next) && Inserted(seqs, n, k, m, k + 1) && SitsOut(seqs[m], k + 1)
    requires Enter(seqs[m], k + 1) == Enter(seqs[n], k + 1)
    ensures b.states[next].timer.Some?
  {
    assert WaitIn(b, t, seqs[m], k + 1);
  }

  lemma StandsEnter(a: Sequence, b: Sequence, d: nat)
    requires 0 < d <= |a.nodes| && d <= |b.nodes| && Stand(a, d) == Stand(b, d)
    ensures Enter(a, d) == Enter(b, d)
  {
    var x, y := Stand(a, d), Stand(b, d);
    assert x[..|x| - 1] == Stand(a, d - 1) && y[..|y| - 1] == Stand(b, d - 1);
    assert x[|x| - 1].event == a.nodes[d - 1].event && y[|y| - 1].event == b.nodes[d - 1].event;
  }

  lemma HungOnShape(b: Build, t: Chart, seqs: seq<Sequence>, n: nat, k: nat, next: nat, b': Build, t': Chart)
    requires Hangs(b, t, seqs, n, k, next) && b.states[next].timer.None? && SitsOut(seqs[n], k + 1)
    requires b' == AttachTimer(b, seqs[n], k, next).0 && t' == Placed(t, Stand(seqs[n], k + 1), n) && Charted(b', t')
    ensures TimerHung(b, t, b', t', next) && |b'.states| == |b.states| + 1
    ensures WaitIn(b', t', seqs[n], k + 1) && TimerFrom(b', t', seqs, n, k + 1, next)
  {
    var s := seqs[n];
    StandOver(s, k + 1);
    StillCharted(b, t, b', t', Enter(s, k + 1));
  }

  /** A minimum wait with more to come hangs a transition to a new state. */
  lemma HungOn(b: Build, t: Chart, seqs: seq<Sequence>, n: nat, k: nat, next: nat, b': Build, t': Chart)
    requires Hangs(b, t, seqs, n, k, next) && b.states[next].timer.None? && SitsOut(seqs[n], k + 1)
    requires b' == AttachTimer(b, seqs[n], k, next).0 && t' == Placed(t, Stand(seqs[n], k + 1), n)
    ensures EdgesRight(b', t', seqs, n, k + 1) && WaitsRight(b', t', seqs, n, k + 1)
    ensures Stand(seqs[n], k + 1) in t'.index && t'.index[Stand(seqs[n], k + 1)] == |b.states|
  {
    var s, place := seqs[n], Stand(seqs[n], k + 1);
    NotYetOver(b, t, seqs, n, k, next);
    PlacedCharted(b, t, place, n, b');
    StandLength(s, k + 1);
    HungOnShape(b, t, seqs, n, k, next, b', t');
    assert Inserted(seqs, n, k + 1, n, k + 1);
    TimerHungEdges(b, t, b', t', next, seqs, n, k + 1);
    TimerHungWaits(b, t, b', t', next, seqs, n, k, k + 1);
  }

  /** A minimum wait that is there already leads on to the place behind it. */
  lemma SatOutBefore(b: Build, t: Chart, seqs: seq<Sequence>, n: nat, k: nat, next: nat)
    requires Regular(seqs) && Hangs(b, t, seqs, n, k, next) && AllAgree(seqs, n, k + 1)
    requires SitsOut(seqs[n], k + 1) && b.states[next].timer.Some?
    ensures WaitIn(b, t, seqs[n], k + 1)
  {
    NotCutShort(b, t, seqs, n, k, next);
    assert TimerFrom(b, t, seqs, n, k, next);
    StandOver(seqs[n], k + 1);
  }

  lemma StandsThere(b: Build, t: Chart, s: Sequence, k: nat, next: nat, b': Build, cur': nat)
    requires Charted(b, t) && k < |s.nodes| && Enter(s, k + 1) in t.index && t.index[Enter(s, k + 1)] == next
    requires s.nodes[k].timer.None? || b.states[next].timer.Some?
    requires SitsOut(s, k + 1) ==> WaitIn(b, t, s, k + 1)
    requires (b', cur') == AttachTimer(b, s, k, next)
    ensures b' == b && Stands(t, s, k + 1, cur')
  {
    StandOver(s, k + 1);
  }

  /** Without a wait, or with a timer that is there already, nothing changes. */
  lemma WaitThere(b: Build, t: Chart, seqs: seq<Sequence>, n: nat, k: nat, next: nat, b': Build, cur': nat)
    requires Regular(seqs) && Hangs(b, t, seqs, n, k, next) && AllAgree(seqs, n, k + 1)
    requires (b', cur') == AttachTimer(b, seqs[n], k, next)
    requires seqs[n].nodes[k].timer.None? || b.states[next].timer.Some?
    ensures b' == b && WaitsRight(b, t, seqs, n, k + 1) && Stands(t, seqs[n], k + 1, cur')
  {
    if SitsOut(seqs[n], k + 1) {
      SatOutBefore(b, t, seqs, n, k, next);
    }
    WaitsMore(b, t, seqs, n, k, k + 1);
    StandsThere(b, t, seqs[n], k, next, b', cur');
  }

  lemma WaitHome(b: Build, t: Chart, seqs: seq<Sequence>, n: nat, k: nat, next: nat, b': Build, cur': nat)
    requires Hangs(b, t, seqs, n, k, next) && b.states[next].timer.None? && CutsShort(seqs[n], k + 1)
    requires (b', cur') == AttachTimer(b, seqs[n], k, next)
    ensures EdgesRight(b', t, seqs, n, k + 1) && WaitsRight(b', t, seqs, n, k + 1) && Stands(t, seqs[n], k + 1, cur')
  {
    StandOver(seqs[n], k + 1);
    HungHome(b, t, seqs, n, k, next, b'.states[next].timer.value, b');
  }

  lemma WaitHung(b: Build, t: Chart, seqs: seq<Sequence>, n: nat, k: nat, next: nat, b': Build, cur': nat) returns (t': Chart)
    requires Regular(seqs) && Hangs(b, t, seqs, n, k, next) && AllAgree(seqs, n, k + 1)
    requires (b', cur') == AttachTimer(b, seqs[n], k, next)
    ensures EdgesRight(b', t', seqs, n, k + 1) && WaitsRight(b', t', seqs, n, k + 1) && Stands(t', seqs[n], k + 1, cur')
  {
    t' := t;
    if seqs[n].nodes[k].timer.None? || b.states[next].timer.Some? {
      WaitThere(b, t, seqs, n, k, next, b', cur');
    } else if SitsOut(seqs[n], k + 1) {
      t' := Placed(t, Stand(seqs[n], k + 1), n);
      HungOn(b, t, seqs, n, k, next, b', t');
    } else {
      WaitHome(b, t, seqs, n, k, next, b', cur');
    }
  }

  /** One insertion step. */
  lemma Step(b: Build, t: Chart, seqs: seq<Sequence>, n: nat, k: nat, cur: nat, b': Build, cur': nat) returns (t': Chart)
    requires Regular(seqs) && Here(b, t, seqs, n, k, cur) && WaitsRight(b, t, seqs, n, k) && AllAgree(seqs, n, k + 1)
    requires cur < |b.states| && InsertNode(b, seqs[n], k, cur) == Some((b', cur'))
    ensures EdgesRight(b', t', seqs, n, k + 1) && WaitsRight(b', t', seqs, n, k + 1) && Stands(t', seqs[n], k + 1, cur')
  {
    var s := seqs[n];
    if s.nodes[k].event in b.states[cur].edges {
      var m := EdgeMeets(b, t, seqs, n, k, cur);
      var next, o := MetState(b, t, seqs, n, k, cur, m);
      EdgeFollowed(b, t, seqs, n, k, cur, m);
      BothGoOn(seqs, m, n, k + 1);
      t' := WaitHung(b, t, seqs, n, k, next, b', cur');
    } else if IsLast(s, k) {
      LastEdge(b, t, seqs, n, k, cur, b');
      WaitsMore(b', t, seqs, n, k, k + 1);
      t' := t;
    } else {
      var b1, t1 := WithNewState(b, s, k, cur), Placed(t, Enter(s, k + 1), n);
      FreshEdge(b, t, seqs, n, k, cur, b1, t1);
      t' := WaitHung(b1, t1, seqs, n, k, |b.states|, b', cur');
    }
  }

  // ---------- whole layers ----------

  ghost predicate AgreeBelow(seqs: seq<Sequence>, n: nat, k: nat) {
    n < |seqs| && forall d: nat {:trigger Disagrees(seqs, n, d)} :: 0 < d <= k ==> !Disagrees(seqs, n, d)
  }

  /** The first `n` sequences and `k` nodes of the next one are in as they should, and the construction stands at `cur`. */
  ghost predicate Right(b: Build, t: Chart, seqs: seq<Sequence>, n: nat, k: nat, cur: nat) {
    && n < |seqs| && k <= |seqs[n].nodes| && AllAgree(seqs, n, k)
    && EdgesRight(b, t, seqs, n, k) && WaitsRight(b, t, seqs, n, k) && Stands(t, seqs[n], k, cur)
  }

  /** Node `k` goes in exactly when its wait does not disagree. */
  lemma StepDecides(b: Build, t: Chart, seqs: seq<Sequence>, n: nat, k: nat, cur: nat) returns (t': Chart)
    requires Regular(seqs) && Right(b, t, seqs, n, k, cur) && k < |seqs[n].nodes|
    ensures cur < |b.states| && (InsertNode(b, seqs[n], k, cur).Some? <==> !Disagrees(seqs, n, k + 1))
    ensures InsertNode(b, seqs[n], k, cur).Some? ==>
      var (b', cur') := InsertNode(b, seqs[n], k, cur).value;
      Right(b', t', seqs, n, k + 1, cur')
  {
    t' := t;
    RefusedExactly(b, t, seqs, n, k, cur);
    if InsertNode(b, seqs[n], k, cur).Some? {
      var (b', cur') := InsertNode(b, seqs[n], k, cur).value;
      AllAgreeNext(seqs, n, k, k + 1);
      t' := Step(b, t, seqs, n, k, cur, b', cur');
    }
  }

  lemma AllAgreeNext(seqs: seq<Sequence>, n: nat, k: nat, k': nat)
    requires AllAgree(seqs, n, k) && k' == k + 1 && !Disagrees(seqs, n, k')
    ensures AllAgree(seqs, n, k')
  {
    forall m: nat, d: nat | Inserted(seqs, n, k', m, d)
      ensures !Disagrees(seqs, m, d)
    {
      if !(m == n && d == k') {
        assert Inserted(seqs, n, k, m, d);
      }
    }
  }

  /** The first `k` nodes went in exactly if no wait among them disagrees. */
  ghost predicate Decided(t: Chart, seqs: seq<Sequence>, n: nat, k: nat, r: Option<(Build, nat)>) {
    && (r.Some? <==> AgreeBelow(seqs, n, k))
    && (r.Some? ==> Right(r.value.0, t, seqs, n, k, r.value.1))
  }

  lemma NextDecided(b: Build, t: Chart, seqs: seq<Sequence>, n: nat, k: nat, cur: nat, r: Option<(Build, nat)>)
      returns (t': Chart)
    requires Regular(seqs) && Right(b, t, seqs, n, k, cur) && k < |seqs[n].nodes| && AgreeBelow(seqs, n, k)
    requires cur < |b.states| && r == InsertNode(b, seqs[n], k, cur)
    ensures Decided(t', seqs, n, k + 1, r)
  {
    AgreeNext(seqs, n, k);
    t' := StepDecides(b, t, seqs, n, k, cur);
  }

  function OneMore(seqs: seq<Sequence>, n: nat, k: nat, r: Option<(Build, nat)>): Option<(Build, nat)>
    requires n < |seqs| && k < |seqs[n].nodes|
    requires r.Some? ==> ValidBuild(r.value.0) && r.value.1 < |r.value.0.states|
  {
    if r.None? then None else InsertNode(r.value.0, seqs[n], k, r.value.1)
  }

  lemma OneMoreDecided(t: Chart, seqs: seq<Sequence>, n: nat, k: nat, r: Option<(Build, nat)>) returns (t': Chart)
    requires Regular(seqs) && n < |seqs| && k < |seqs[n].nodes| && Decided(t, seqs, n, k, r)
    requires r.Some? ==> ValidBuild(r.value.0) && r.value.1 < |r.value.0.states|
    ensures Decided(t', seqs, n, k + 1, OneMore(seqs, n, k, r))
  {
    t' := t;
    if r.None? {
      AgreeNext(seqs, n, k);
    } else {
      t' := NextDecided(r.value.0, t, seqs, n, k, r.value.1, OneMore(seqs, n, k, r));
    }
  }

  lemma OneMorePrefix(b: Build, seqs: seq<Sequence>, n: nat, k: nat)
    requires n < |seqs| && k < |seqs[n].nodes| && ValidBuild(b)
    ensures InsertPrefix(b, seqs[n], k + 1) == OneMore(seqs, n, k, InsertPrefix(b, seqs[n], k))
  {
  }

  lemma {:induction false} PrefixDecides(b: Build, t: Chart, seqs: seq<Sequence>, n: nat, k: nat) returns (t': Chart)
    requires Regular(seqs) && Right(b, t, seqs, n, 0, HOME_STATE_IDX) && k <= |seqs[n].nodes|
    ensures Decided(t', seqs, n, k, InsertPrefix(b, seqs[n], k))
    decreases k
  {
    if k == 0 {
      t' := t;
    } else {
      var t1 := PrefixDecides(b, t, seqs, n, k - 1);
      t' := OneMoreDecided(t1, seqs, n, k - 1, InsertPrefix(b, seqs[n], k - 1));
      OneMorePrefix(b, seqs, n, k - 1);
    }
  }

  lemma AgreeNext(seqs: seq<Sequence>, n: nat, k: nat)
    ensures AgreeBelow(seqs, n, k + 1) <==> AgreeBelow(seqs, n, k) && !Disagrees(seqs, n, k + 1)
  {
    if AgreeBelow(seqs, n, k) && !Disagrees(seqs, n, k + 1) {
      forall d: nat | 0 < d <= k + 1
        ensures !Disagrees(seqs, n, d)
      {}
    }
  }

  /** All waits of the first `n` sequences agree with the first ones written at their places. */
  ghost predicate WaitsAgree(seqs: seq<Sequence>, n: nat)
    requires n <= |seqs|
  {
    forall m: nat {:trigger AgreeBelow(seqs, m, |seqs[m].nodes|)} :: m < n ==> AgreeBelow(seqs, m, |seqs[m].nodes|)
  }

  lemma HomeRight(seqs: seq<Sequence>) returns (t: Chart)
    ensures EdgesRight(HOME_BUILD, t, seqs, 0, 0) && WaitsRight(HOME_BUILD, t, seqs, 0, 0)
  {
    t := Chart([[]], [0], map[[] := HOME_STATE_IDX]);
  }

  lemma NextSequence(b: Build, t: Chart, seqs: seq<Sequence>, n: nat, cur: nat)
    requires n < |seqs| && Right(b, t, seqs, n, |seqs[n].nodes|, cur)
    ensures EdgesRight(b, t, seqs, n + 1, 0) && WaitsRight(b, t, seqs, n + 1, 0)
  {
    var k := |seqs[n].nodes|;
    var n' := n + 1;
    forall m: nat, d: nat | Inserted(seqs, n', 0, m, d)
      ensures EdgeIn(b, t, seqs[m], d) && (SitsOut(seqs[m], d) ==> WaitIn(b, t, seqs[m], d))
    {
      assert Inserted(seqs, n, k, m, d);
    }
    EdgesMore(b, t, seqs, n, k, n + 1, 0);
    forall j | 0 <= j < |b.states|
      ensures TimerFrom(b, t, seqs, n', 0, j) && WaitedFrom(t, seqs, n', 0, j)
    {
      assert TimerFrom(b, t, seqs, n, k, j) && WaitedFrom(t, seqs, n, k, j);
      TimerMore(b, t, b, t, seqs, n, k, n', 0, j);
    }
  }

  lemma StartSequence(b: Build, t: Chart, seqs: seq<Sequence>, n: nat)
    requires n < |seqs| && WaitsAgree(seqs, n) && EdgesRight(b, t, seqs, n, 0) && WaitsRight(b, t, seqs, n, 0)
    ensures Right(b, t, seqs, n, 0, HOME_STATE_IDX)
  {
    forall m: nat, d: nat | Inserted(seqs, n, 0, m, d)
      ensures !Disagrees(seqs, m, d)
    {
      assert AgreeBelow(seqs, m, |seqs[m].nodes|);
    }
  }

  lemma {:induction false} FirstCompile(seqs: seq<Sequence>, n: nat) returns (t: Chart)
    requires Regular(seqs) && n <= |seqs|
    ensures CompilePrefix(seqs, n).Some? <==> WaitsAgree(seqs, n)
    ensures CompilePrefix(seqs, n).Some? ==>
      EdgesRight(CompilePrefix(seqs, n).value, t, seqs, n, 0) && WaitsRight(CompilePrefix(seqs, n).value, t, seqs, n, 0)
    decreases n
  {
    if n == 0 {
      t := HomeRight(seqs);
    } else {
      var m := n - 1;
      t := FirstCompile(seqs, m);
      assert WaitsAgree(seqs, n) <==> WaitsAgree(seqs, m) && AgreeBelow(seqs, m, |seqs[m].nodes|);
      if CompilePrefix(seqs, m).Some? {
        var b := CompilePrefix(seqs, m).value;
        CompileNext(seqs, m, b);
        StartSequence(b, t, seqs, m);
        t := PrefixDecides(b, t, seqs, m, |seqs[m].nodes|);
        if InsertPrefix(b, seqs[m], |seqs[m].nodes|).Some? {
          var (b', cur') := InsertPrefix(b, seqs[m], |seqs[m].nodes|).value;
          NextSequence(b', t, seqs, m, cur');
        }
      }
    }
  }

  /** Layers whose words are prefix-free, whose sequences behave alike where they start alike, and in which no maximum wait cuts
      a minimum wait short: refused if and only if some sequence has a wait behind an event that differs from the wait of the
      first sequence that comes to the same place, both being there. */
  lemma WaitsDecide(seqs: seq<Sequence>)
    requires Regular(seqs)
    ensures Compile(seqs).None? <==> exists n: nat, d: nat :: Disagrees(seqs, n, d)
  {
    var t := FirstCompile(seqs, |seqs|);
    if exists n: nat, d: nat :: Disagrees(seqs, n, d) {
      var n: nat, d: nat :| Disagrees(seqs, n, d);
      assert !AgreeBelow(seqs, n, |seqs[n].nodes|);
    }
  }

  // ---------- corollaries and limits ----------

  /** Two sequences that behave alike, neither word beginning with the other: refused together if and only if behind some event
      on their common way both wait, and not alike. Where one of the two waits are absent nothing is refused. */
  lemma PairRefused(a: Sequence, b: Sequence)
    requires !NestedIn(a, b) && !NestedIn(b, a) && a.behavior == b.behavior
    ensures Compile([a, b]).None? <==>
      exists d: nat :: SameWay(a, b, d) && Apart(a.nodes[d - 1].timer, b.nodes[d - 1].timer)
  {
    var seqs := [a, b];
    forall m: nat, n: nat, d: nat | m < n < |seqs| && Opposed(seqs[m], seqs[n], d)
      ensures FirstWaits(seqs, seqs[n], d)
    {
      assert First(seqs, 0, b, d);
    }
    WaitsDecide(seqs);
    if Compile(seqs).None? {
      var n: nat, d: nat :| Disagrees(seqs, n, d);
      MeetExactly(a, b, d);
    }
    if exists d: nat :: SameWay(a, b, d) && Apart(a.nodes[d - 1].timer, b.nodes[d - 1].timer) {
      var d: nat :| SameWay(a, b, d) && Apart(a.nodes[d - 1].timer, b.nodes[d - 1].timer);
      MeetExactly(a, b, d);
      assert First(seqs, 0, seqs[1], d);
      assert Disagrees(seqs, 1, d);
    }
  }

  /** Where words agree, so do the minimum waits in between. */
  predicate WordsTell(seqs: seq<Sequence>) {
    forall m: nat, n: nat, d: nat {:trigger SharePrefix(seqs[m], seqs[n], d)} ::
      m < |seqs| && n < |seqs| && d <= |seqs[m].nodes| && SharePrefix(seqs[m], seqs[n], d) ==> SameWay(seqs[m], seqs[n], d)
  }

  /** The first sequence with the same word so far has another wait behind it. */
  predicate DisagreesByWord(seqs: seq<Sequence>, n: nat, d: nat) {
    n < |seqs| && 0 < d <= |seqs[n].nodes| &&
    exists o: nat :: o < n && SharePrefix(seqs[o], seqs[n], d) && (forall m :: 0 <= m < o ==> !SharePrefix(seqs[m], seqs[n], d)) &&
      Apart(seqs[o].nodes[d - 1].timer, seqs[n].nodes[d - 1].timer)
  }

  lemma WaysByWord(seqs: seq<Sequence>, n: nat, d: nat)
    requires WordsTell(seqs)
    ensures Disagrees(seqs, n, d) <==> DisagreesByWord(seqs, n, d)
  {
    forall m: nat | m < |seqs| && n < |seqs|
      ensures Meet(seqs[m], seqs[n], d) <==> SharePrefix(seqs[m], seqs[n], d)
    {
      MeetExactly(seqs[m], seqs[n], d);
    }
  }

  /** For such layers the words alone decide. */
  lemma WordsDecide(seqs: seq<Sequence>)
    requires Regular(seqs) && WordsTell(seqs)
    ensures Compile(seqs).None? <==> exists n: nat, d: nat :: DisagreesByWord(seqs, n, d)
  {
    WaitsDecide(seqs);
    forall n: nat, d: nat
      ensures Disagrees(seqs, n, d) <==> DisagreesByWord(seqs, n, d)
    {
      WaysByWord(seqs, n, d);
    }
  }

  /** Without that they do not: a sequence that does not make the minimum wait of another goes another way, and different waits
      behind the same word are accepted. */
  lemma WordsMayMislead(s: Sequence, r: Sequence, a: InputEvent, c: InputEvent, d: InputEvent, e: InputEvent, w: nat, x: nat,
                        y: nat)
    requires d != e && x != y && s.behavior == r.behavior
    requires s.nodes == [Node(a, Some(MinimumWait(w))), Node(c, Some(MaximumWait(x))), Node(d, None)]
    requires r.nodes == [Node(a, None), Node(c, Some(MaximumWait(y))), Node(e, None)]
    ensures Regular([s, r]) && DisagreesByWord([s, r], 1, 2) && Compile([s, r]).Some?
  {
    assert Word(s)[2] == d && Word(r)[2] == e;
    assert !NestedIn(s, r) && !NestedIn(r, s);
    PairRefused(s, r);
    assert !IsMinimum(r.nodes[0].timer) && IsMinimum(s.nodes[0].timer);
    assert Word(s)[..2] == Word(r)[..2];
    assert SharePrefix([s, r][0], [s, r][1], 2);
  }

  /** State 1 is entered from HOME on `a`, without a wait. */
  predicate EnteredOn(b: Build, a: InputEvent, behavior: SequenceBehavior) {
    && ValidBuild(b) && |b.states| == 2 && a in b.states[HOME_STATE_IDX].edges
    && b.states[HOME_STATE_IDX].edges[a].newState == 1 && b.metadata[1] == StateMetadata(None, behavior)
  }

  lemma FirstIn(s: Sequence, a: InputEvent, b: InputEvent) returns (r: Build)
    requires s.nodes == [Node(a, None), Node(b, None)]
    ensures InsertPrefix(HOME_BUILD, s, 2).Some? && r == InsertPrefix(HOME_BUILD, s, 2).value.0
    ensures EnteredOn(r, a, s.behavior) && r.states[1].timer.None? && forall e :: e in r.states[1].edges ==> e == b
  {
    assert InsertPrefix(HOME_BUILD, s, 0) == Some((HOME_BUILD, HOME_STATE_IDX));
    assert InsertPrefix(HOME_BUILD, s, 1).Some?;
    var (b1, cur) := InsertPrefix(HOME_BUILD, s, 1).value;
    assert cur == 1 && b1.states[1].edges == map[];
    r := SetEdge(b1, 1, b, CompleteEdge(s, b));
  }

  lemma MaximumIn(b: Build, s: Sequence, a: InputEvent, c: InputEvent, x: nat) returns (r: Build)
    requires s.nodes == [Node(a, Some(MaximumWait(x))), Node(c, None)] && EnteredOn(b, a, s.behavior)
    requires b.states[1].timer.None? && c !in b.states[1].edges && a != c
    ensures InsertPrefix(b, s, 2).Some? && r == InsertPrefix(b, s, 2).value.0 && EnteredOn(r, a, s.behavior)
    ensures r.states[1].timer.Some? && r.states[1].timer.value.newState == HOME_STATE_IDX
  {
    assert InsertPrefix(b, s, 0) == Some((b, HOME_STATE_IDX));
    var b1 := SetTimer(b, 1, b.states[1].fallback);
    assert InsertPrefix(b, s, 1) == Some((b1, 1));
    r := SetEdge(b1, 1, c, CompleteEdge(s, c));
  }

  lemma MinimumRefused(b: Build, s: Sequence, a: InputEvent, w: nat)
    requires s.nodes == [Node(a, Some(MinimumWait(w))), Node(a, None)] && EnteredOn(b, a, s.behavior)
    requires b.states[1].timer.Some? && b.states[1].timer.value.newState == HOME_STATE_IDX
    ensures InsertPrefix(b, s, 2).None?
  {
    assert InsertPrefix(b, s, 0) == Some((b, HOME_STATE_IDX));
    assert InsertPrefix(b, s, 1) == Some((b, HOME_STATE_IDX));
  }

  lemma CutShortRefused(seqs: seq<Sequence>, a: InputEvent, b: InputEvent, c: InputEvent, x: nat, w: nat)
    requires |seqs| == 3 && a != b && b != c && a != c && seqs[0].behavior == seqs[1].behavior == seqs[2].behavior
    requires seqs[0].nodes == [Node(a, None), Node(b, None)]
    requires seqs[1].nodes == [Node(a, Some(MaximumWait(x))), Node(c, None)]
    requires seqs[2].nodes == [Node(a, Some(MinimumWait(w))), Node(a, None)]
    ensures Compile(seqs).None?
  {
    CompileNext(seqs, 0, HOME_BUILD);
    var b1 := FirstIn(seqs[0], a, b);
    CompileNext(seqs, 1, b1);
    var b2 := MaximumIn(b1, seqs[1], a, c, x);
    CompileNext(seqs, 2, b2);
    MinimumRefused(b2, seqs[2], a, w);
  }

  /** Nor can the other condition be left out: where a maximum wait cuts a minimum wait short, the rest of the sequence is inserted
      from HOME, and may be refused there although no waits differ. */
  lemma CutShortMisleads(s: Sequence, r: Sequence, q: Sequence, a: InputEvent, b: InputEvent, c: InputEvent, x: nat, w: nat)
    requires a != b && b != c && a != c && s.behavior == r.behavior == q.behavior
    requires s.nodes == [Node(a, None), Node(b, None)]
    requires r.nodes == [Node(a, Some(MaximumWait(x))), Node(c, None)]
    requires q.nodes == [Node(a, Some(MinimumWait(w))), Node(a, None)]
    ensures Unnested([s, r, q]) && BehaviorsAgree([s, r, q]) && Compile([s, r, q]).None?
    ensures forall n: nat, d: nat :: !Disagrees([s, r, q], n, d)
  {
    var seqs := [s, r, q];
    assert Word(s)[1] == b && Word(r)[1] == c && Word(q)[1] == a;
    CutShortRefused(seqs, a, b, c, x, w);
    forall n: nat, d: nat
      ensures !Disagrees(seqs, n, d)
    {
      NoneDiffer(s, r, q, a, seqs, n, d);
    }
  }

  lemma NoneDiffer(s: Sequence, r: Sequence, q: Sequence, a: InputEvent, seqs: seq<Sequence>, n: nat, d: nat)
    requires seqs == [s, r, q] && |s.nodes| == |r.nodes| == |q.nodes| == 2 && s.nodes[0] == Node(a, None)
    requires r.nodes[0].event == q.nodes[0].event == a && r.nodes[1].timer == q.nodes[1].timer == None
    ensures !Disagrees(seqs, n, d)
  {
    if n < 3 && d == 1 {
      assert Meet(seqs[0], seqs[n], 1);
    }
  }
}