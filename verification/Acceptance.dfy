/** Which layers compile, and what the automaton of one that does represents. */
module Acceptance {
  import opened Options
  import opened Profiles
  import opened Automata
  import opened StateMachine
  import opened Trie

  /** Two sequences that cannot live in one layer: they start alike, and either behave differently
      or one trigger word is a prefix of the other. */
  predicate Clashing(a: Sequence, b: Sequence) {
    && a.nodes != [] && b.nodes != [] && a.nodes[0].event == b.nodes[0].event
    && (a.behavior != b.behavior || Word(a) <= Word(b) || Word(b) <= Word(a))
  }

  predicate ClashFree(seqs: seq<Sequence>, n: nat)
    requires n <= |seqs|
  {
    forall i, j {:trigger Clashing(seqs[i], seqs[j])} :: 0 <= i < j < n ==> !Clashing(seqs[i], seqs[j])
  }

  lemma NestedClashes(a: Sequence, b: Sequence)
    requires NestedIn(a, b)
    ensures Clashing(a, b) && Clashing(b, a)
  {
    assert Word(a)[0] == Word(b)[0];
  }

  /** A step is refused only because of an earlier sequence that clashes. */
  lemma RefusedClashes(b: Build, l: Labelling, seqs: seq<Sequence>, n: nat, k: nat, cur: nat) returns (m: nat)
    requires Ready(b, l, seqs, n, k, cur) && cur < |b.states| && InsertNode(b, seqs[n], k, cur).None?
    ensures m < n && Clashing(seqs[m], seqs[n])
  {
    var s := seqs[n];
    assert s.nodes[k].event in b.states[cur].edges;
    if b.states[cur].edges[s.nodes[k].event].newState == HOME_STATE_IDX {
      m := RefusedAtHome(b, l, seqs, n, k, cur);
      NestedClashes(seqs[m], s);
    } else {
      var t, o := EdgeOwner(b, l, seqs, n, k, cur);
      m := o;
      assert Word(s)[..k + 1][0] == Word(seqs[o])[..k + 1][0];
      if IsLast(s, k) {
        assert Word(s) == Word(s)[..k + 1];
      }
    }
  }

  /** Earlier sequences that share the word so far do not clash: neither ends here and they behave alike. */
  lemma EarlierAgree(seqs: seq<Sequence>, n: nat, o: nat, m: nat, d: nat)
    requires n <= |seqs| && ClashFree(seqs, n) && o < n && m < n && SharePrefix(seqs[o], seqs[m], d)
    ensures seqs[o].behavior == seqs[m].behavior && (d == |seqs[m].nodes| ==> o == m)
  {
    assert Word(seqs[o])[..d][0] == Word(seqs[m])[..d][0];
    assert o == m || !Clashing(seqs[m], seqs[o]) || !Clashing(seqs[o], seqs[m]);
    if d == |seqs[m].nodes| {
      assert Word(seqs[m]) == Word(seqs[m])[..d];
      assert Word(seqs[m]) <= Word(seqs[o]);
    }
  }

  /** Where an earlier sequence shares the word so far and clashes here, the step is refused. */
  lemma ClashRefused(b: Build, l: Labelling, seqs: seq<Sequence>, n: nat, k: nat, cur: nat, m: nat)
    requires Ready(b, l, seqs, n, k, cur) && cur < |b.states| && ClashFree(seqs, n)
    requires m < n && SharePrefix(seqs[m], seqs[n], k + 1)
    requires IsLast(seqs[n], k) || IsLast(seqs[m], k) || seqs[m].behavior != seqs[n].behavior
    ensures InsertNode(b, seqs[n], k, cur).None?
  {
    var s := seqs[n];
    assert Inserted(seqs, n, k, m, k + 1);
    EdgeFound(b, l, seqs, n, k, cur, m);
    if b.states[cur].edges[s.nodes[k].event].newState == HOME_STATE_IDX {
      var _ := RefusedAtHome(b, l, seqs, n, k, cur);
    } else if !IsLast(s, k) {
      var t, o := EdgeOwner(b, l, seqs, n, k, cur);
      assert SharePrefix(seqs[o], seqs[m], k + 1);
      EarlierAgree(seqs, n, o, m, k + 1);
    }
  }

  lemma {:induction false} PrefixRepresents(b: Build, l: Labelling, seqs: seq<Sequence>, n: nat, k: nat, b': Build,
                                            cur': nat)
      returns (l': Labelling)
    requires Represents(b, l, seqs, n, 0) && CompatibleBefore(seqs, n) && k <= |seqs[n].nodes|
    requires InsertPrefix(b, seqs[n], k) == Some((b', cur'))
    ensures Represents(b', l', seqs, n, k) && StandsAt(l', seqs[n], k, cur')
    decreases k
  {
    if k == 0 {
      l' := l;
      assert ActiveLabel(seqs[n], 0) == HOME_LABEL;
    } else {
      var b1, cur := PrefixNext(b, seqs[n], k, b', cur');
      var l1 := PrefixRepresents(b, l, seqs, n, k - 1, b1, cur);
      l' := InsertStep(b1, l1, seqs, n, k - 1, cur, b', cur');
    }
  }

  lemma {:induction false} PrefixRefused(b: Build, l: Labelling, seqs: seq<Sequence>, n: nat, k: nat) returns (m: nat)
    requires Represents(b, l, seqs, n, 0) && CompatibleBefore(seqs, n) && k <= |seqs[n].nodes|
    requires InsertPrefix(b, seqs[n], k).None?
    ensures m < n && Clashing(seqs[m], seqs[n])
    decreases k
  {
    if InsertPrefix(b, seqs[n], k - 1).None? {
      m := PrefixRefused(b, l, seqs, n, k - 1);
    } else {
      var (b1, cur) := InsertPrefix(b, seqs[n], k - 1).value;
      var l1 := PrefixRepresents(b, l, seqs, n, k - 1, b1, cur);
      m := RefusedClashes(b1, l1, seqs, n, k - 1, cur);
    }
  }

  /** The step at which a clash with an earlier sequence shows. */
  lemma ClashStep(earlier: Sequence, later: Sequence) returns (k: nat)
    requires Compatible(earlier, later) && Clashing(earlier, later)
    ensures k < |later.nodes| && SharePrefix(earlier, later, k + 1)
    ensures IsLast(later, k) || IsLast(earlier, k) || earlier.behavior != later.behavior
  {
    if earlier.behavior != later.behavior {
      k := 0;
    } else if NestedIn(later, earlier) {
      k := |later.nodes| - 1;
    } else {
      k := |earlier.nodes| - 1;
    }
  }

  lemma ClashesAt(b: Build, l: Labelling, seqs: seq<Sequence>, n: nat, m: nat, k: nat, b1: Build, cur: nat)
    requires Represents(b, l, seqs, n, 0) && CompatibleBefore(seqs, n) && ClashFree(seqs, n) && m < n
    requires k < |seqs[n].nodes| && InsertPrefix(b, seqs[n], k) == Some((b1, cur)) && SharePrefix(seqs[m], seqs[n], k + 1)
    requires IsLast(seqs[n], k) || IsLast(seqs[m], k) || seqs[m].behavior != seqs[n].behavior
    ensures InsertPrefix(b, seqs[n], k + 1).None?
  {
    var l1 := PrefixRepresents(b, l, seqs, n, k, b1, cur);
    ClashRefused(b1, l1, seqs, n, k, cur, m);
    PrefixStep(b, seqs[n], k, b1, cur);
  }

  lemma {:induction false} PrefixClashes(b: Build, l: Labelling, seqs: seq<Sequence>, n: nat, m: nat)
    requires Represents(b, l, seqs, n, 0) && CompatibleBefore(seqs, n) && ClashFree(seqs, n)
    requires m < n && Clashing(seqs[m], seqs[n])
    ensures InsertPrefix(b, seqs[n], |seqs[n].nodes|).None?
  {
    var s := seqs[n];
    assert Compatible(seqs[m], s);
    var k := ClashStep(seqs[m], s);
    if InsertPrefix(b, s, k).Some? {
      var (b1, cur) := InsertPrefix(b, s, k).value;
      ClashesAt(b, l, seqs, n, m, k, b1, cur);
      PrefixFails(s, b, k + 1, |s.nodes|);
    } else {
      PrefixFails(s, b, k, |s.nodes|);
    }
  }

  lemma NextSequence(b: Build, l: Labelling, seqs: seq<Sequence>, n: nat, n': nat)
    requires n < |seqs| && n' == n + 1 && Represents(b, l, seqs, n, |seqs[n].nodes|)
    ensures Represents(b, l, seqs, n', 0)
  {
    InsertedMore(b, l, seqs, n, |seqs[n].nodes|, n', 0);
    forall m: nat, d: nat | Inserted(seqs, n', 0, m, d)
      ensures Present(b, l, seqs[m], d - 1)
    {
      assert Inserted(seqs, n, |seqs[n].nodes|, m, d);
    }
  }

  /** One whole sequence goes in exactly when it clashes with none before it. */
  lemma SequenceStep(b: Build, l: Labelling, seqs: seq<Sequence>, n: nat, r: Option<(Build, nat)>) returns (l': Labelling)
    requires Represents(b, l, seqs, n, 0) && CompatibleBefore(seqs, n) && ClashFree(seqs, n)
    requires r == InsertPrefix(b, seqs[n], |seqs[n].nodes|)
    ensures r.Some? <==> ClashFree(seqs, n + 1)
    ensures r.Some? ==> Represents(r.value.0, l', seqs, n + 1, 0)
  {
    l' := l;
    var size := |seqs[n].nodes|;
    if r.None? {
      var m := PrefixRefused(b, l, seqs, n, size);
      assert Clashing(seqs[m], seqs[n]);
    } else {
      l' := PrefixRepresents(b, l, seqs, n, size, r.value.0, r.value.1);
      NextSequence(r.value.0, l', seqs, n, n + 1);
      forall m | 0 <= m < n
        ensures !Clashing(seqs[m], seqs[n])
      {
        if Clashing(seqs[m], seqs[n]) {
          PrefixClashes(b, l, seqs, n, m);
        }
      }
    }
  }

  /** Compatible sequences compile exactly when no two of them clash, and the automaton then represents them all. */
  lemma {:induction false} CompiledRepresents(seqs: seq<Sequence>, n: nat) returns (l: Labelling)
    requires CompatibleAll(seqs) && n <= |seqs|
    ensures CompilePrefix(seqs, n).Some? <==> ClashFree(seqs, n)
    ensures CompilePrefix(seqs, n).Some? ==> Represents(CompilePrefix(seqs, n).value, l, seqs, n, 0)
    decreases n
  {
    if n == 0 {
      l := Labelling([HOME_LABEL], [0], map[HOME_LABEL := 0]);
      assert Represents(HOME_BUILD, l, seqs, 0, 0);
    } else {
      l := CompiledRepresents(seqs, n - 1);
      if CompilePrefix(seqs, n - 1).Some? {
        var b := CompilePrefix(seqs, n - 1).value;
        CompileNext(seqs, n - 1, b);
        l := SequenceStep(b, l, seqs, n - 1, InsertPrefix(b, seqs[n - 1], |seqs[n - 1].nodes|));
      }
    }
  }

  // ---------- layers a user can check ----------

  predicate Untimed(s: Sequence) {
    forall i :: 0 <= i < |s.nodes| ==> s.nodes[i].timer.None?
  }

  /** No trigger word is a prefix of another's, and timers agree where words do. */
  predicate PrefixFree(seqs: seq<Sequence>) {
    forall i, j :: 0 <= i < j < |seqs| ==>
      TimersAgree(seqs[i], seqs[j]) && !NestedIn(seqs[i], seqs[j]) && !NestedIn(seqs[j], seqs[i])
  }

  /** Sequences with the same first event have the same behaviour. */
  predicate BehaviorsAgree(seqs: seq<Sequence>) {
    forall i, j ::
      (0 <= i < j < |seqs| && seqs[i].nodes != [] && seqs[j].nodes != [] &&
       seqs[i].nodes[0].event == seqs[j].nodes[0].event) ==> seqs[i].behavior == seqs[j].behavior
  }

  predicate UntimedWithoutDefault(seqs: seq<Sequence>) {
    forall i :: 0 <= i < |seqs| ==> Untimed(seqs[i]) && seqs[i].behavior != SequenceBehavior.Default
  }

  /** Prefix-free layers, whatever their behaviours and timers: accepted iff behaviours agree. */
  lemma PrefixFreeAcceptance(seqs: seq<Sequence>)
    requires PrefixFree(seqs)
    ensures CompatibleAll(seqs)
    ensures Compile(seqs).Some? <==> BehaviorsAgree(seqs)
  {
    var _ := CompiledRepresents(seqs, |seqs|);
    if BehaviorsAgree(seqs) {
      forall i, j | 0 <= i < j < |seqs|
        ensures !Clashing(seqs[i], seqs[j])
      {
        assert !NestedIn(seqs[i], seqs[j]) && !NestedIn(seqs[j], seqs[i]);
      }
    } else {
      var i, j :| 0 <= i < j < |seqs| && seqs[i].nodes != [] && seqs[j].nodes != [] &&
        seqs[i].nodes[0].event == seqs[j].nodes[0].event && seqs[i].behavior != seqs[j].behavior;
      assert Clashing(seqs[i], seqs[j]);
    }
  }

  /** Untimed layers of Capture and Release sequences: accepted iff words are prefix-free and behaviours agree. */
  lemma ExactAcceptance(seqs: seq<Sequence>)
    requires UntimedWithoutDefault(seqs)
    ensures Compile(seqs).Some? <==> PrefixFree(seqs) && BehaviorsAgree(seqs)
  {
    forall i, j | 0 <= i < j < |seqs|
      ensures Compatible(seqs[i], seqs[j])
    {
      assert Untimed(seqs[i]) && Untimed(seqs[j]);
    }
    var _ := CompiledRepresents(seqs, |seqs|);
    if ClashFree(seqs, |seqs|) {
      forall i, j | 0 <= i < j < |seqs|
        ensures !NestedIn(seqs[i], seqs[j]) && !NestedIn(seqs[j], seqs[i])
      {
        assert !Clashing(seqs[i], seqs[j]);
        if NestedIn(seqs[i], seqs[j]) {
          NestedClashes(seqs[i], seqs[j]);
        } else if NestedIn(seqs[j], seqs[i]) {
          NestedClashes(seqs[j], seqs[i]);
        }
      }
      assert BehaviorsAgree(seqs) by {
        assert forall i, j :: 0 <= i < j < |seqs| ==> !Clashing(seqs[i], seqs[j]);
      }
    } else if PrefixFree(seqs) && BehaviorsAgree(seqs) {
      PrefixFreeAcceptance(seqs);
    }
  }

  /** A relation that holds between any two different places of a list. */
  ghost predicate AllPairs(seqs: seq<Sequence>, related: (Sequence, Sequence) -> bool) {
    forall i, j :: 0 <= i < j < |seqs| ==> related(seqs[i], seqs[j])
  }

  ghost predicate BagPairs(bag: multiset<Sequence>, related: (Sequence, Sequence) -> bool) {
    forall a, b :: a in bag && b in bag && (a != b || bag[a] > 1) ==> related(a, b)
  }

  lemma {:induction false} TwiceInBag(seqs: seq<Sequence>, a: Sequence) returns (i: nat, j: nat)
    requires multiset(seqs)[a] > 1
    ensures i < j < |seqs| && seqs[i] == a && seqs[j] == a
  {
    var last := |seqs| - 1;
    assert seqs == seqs[..last] + [seqs[last]];
    if seqs[last] == a {
      assert a in multiset(seqs[..last]);
      i :| 0 <= i < last && seqs[..last][i] == a;
      j := last;
    } else {
      i, j := TwiceInBag(seqs[..last], a);
    }
  }

  lemma PairsFromBag(seqs: seq<Sequence>, related: (Sequence, Sequence) -> bool)
    requires BagPairs(multiset(seqs), related)
    ensures AllPairs(seqs, related)
  {
    forall i, j | 0 <= i < j < |seqs|
      ensures related(seqs[i], seqs[j])
    {
      if seqs[i] == seqs[j] {
        assert seqs == seqs[..j] + [seqs[j]] + seqs[j + 1..];
        assert seqs[i] in seqs[..j];
      }
    }
  }

  lemma PairsToBag(seqs: seq<Sequence>, related: (Sequence, Sequence) -> bool)
    requires AllPairs(seqs, related) && forall a, b :: related(a, b) == related(b, a)
    ensures BagPairs(multiset(seqs), related)
  {
    forall a, b | a in multiset(seqs) && b in multiset(seqs) && (a != b || multiset(seqs)[a] > 1)
      ensures related(a, b)
    {
      var i, j;
      if a != b {
        i :| 0 <= i < |seqs| && seqs[i] == a;
        j :| 0 <= j < |seqs| && seqs[j] == b;
      } else {
        i, j := TwiceInBag(seqs, a);
      }
      assert if i < j then related(seqs[i], seqs[j]) else related(seqs[j], seqs[i]);
    }
  }

  /** For a relation that is the same both ways the order of the list does not matter. */
  lemma PairsIgnoreOrder(seqs: seq<Sequence>, other: seq<Sequence>, related: (Sequence, Sequence) -> bool)
    requires multiset(seqs) == multiset(other) && forall a, b :: related(a, b) == related(b, a)
    ensures AllPairs(seqs, related) <==> AllPairs(other, related)
  {
    if AllPairs(seqs, related) {
      PairsToBag(seqs, related);
      PairsFromBag(other, related);
    } else if AllPairs(other, related) {
      PairsToBag(other, related);
      PairsFromBag(seqs, related);
    }
  }

  predicate Apart(a: Sequence, b: Sequence) {
    TimersAgree(a, b) && !NestedIn(a, b) && !NestedIn(b, a)
  }

  lemma ApartBothWays(a: Sequence, b: Sequence)
    ensures Apart(a, b) == Apart(b, a)
  {
    assert forall d: nat :: SharePrefix(a, b, d) == SharePrefix(b, a, d);
  }

  lemma PrefixFreeIgnoresOrder(seqs: seq<Sequence>, other: seq<Sequence>)
    requires PrefixFree(seqs) && multiset(seqs) == multiset(other)
    ensures PrefixFree(other)
  {
    var apart := (a, b) => Apart(a, b);
    forall a, b
      ensures apart(a, b) == apart(b, a)
    {
      ApartBothWays(a, b);
    }
    assert AllPairs(seqs, apart);
    PairsIgnoreOrder(seqs, other, apart);
    assert forall i, j :: 0 <= i < j < |other| ==> apart(other[i], other[j]);
  }

  lemma ClashFreeIgnoresOrder(seqs: seq<Sequence>, other: seq<Sequence>)
    requires multiset(seqs) == multiset(other)
    ensures ClashFree(seqs, |seqs|) <==> ClashFree(other, |other|)
  {
    var apart := (a, b) => !Clashing(a, b);
    PairsIgnoreOrder(seqs, other, apart);
    assert AllPairs(seqs, apart) <==> ClashFree(seqs, |seqs|);
    assert AllPairs(other, apart) <==> ClashFree(other, |other|);
  }

  lemma UntimedIgnoresOrder(seqs: seq<Sequence>, other: seq<Sequence>)
    requires UntimedWithoutDefault(seqs) && multiset(seqs) == multiset(other)
    ensures UntimedWithoutDefault(other)
  {
    forall i | 0 <= i < |other|
      ensures Untimed(other[i]) && other[i].behavior != SequenceBehavior.Default
    {
      assert other[i] in multiset(other);
      assert other[i] in seqs;
    }
  }

  /** For untimed layers of Capture and Release sequences, and for prefix-free layers whatever their behaviours and timers,
      the order of the sequences does not decide acceptance. */
  lemma AcceptanceIgnoresOrder(seqs: seq<Sequence>, other: seq<Sequence>)
    requires UntimedWithoutDefault(seqs) || PrefixFree(seqs)
    requires multiset(seqs) == multiset(other)
    ensures Compile(seqs).Some? <==> Compile(other).Some?
  {
    if UntimedWithoutDefault(seqs) {
      UntimedIgnoresOrder(seqs, other);
      assert CompatibleAll(seqs) && CompatibleAll(other);
    } else {
      PrefixFreeIgnoresOrder(seqs, other);
      assert CompatibleAll(seqs) && CompatibleAll(other);
    }
    var _ := CompiledRepresents(seqs, |seqs|);
    var _ := CompiledRepresents(other, |other|);
    ClashFreeIgnoresOrder(seqs, other);
  }

  // ---------- exactly when the order does not matter ----------

  /** Timers agree where words do, and no word that another begins with ends in a wait. */
  predicate TimersRegular(seqs: seq<Sequence>) {
    forall i, j :: 0 <= i < j < |seqs| ==> RegularPair(seqs[i], seqs[j])
  }

  predicate RegularPair(a: Sequence, b: Sequence) {
    TimersAgree(a, b) && (NestedIn(a, b) ==> !EndsTimed(a)) && (NestedIn(b, a) ==> !EndsTimed(b))
  }

  /** What the first sequences compile to does not depend on what follows. */
  lemma {:induction false} CompileSame(seqs: seq<Sequence>, other: seq<Sequence>, n: nat)
    requires n <= |seqs| && n <= |other| && seqs[..n] == other[..n]
    ensures CompilePrefix(seqs, n) == CompilePrefix(other, n)
    decreases n
  {
    if n > 0 {
      assert seqs[..n - 1] == seqs[..n][..n - 1] == other[..n][..n - 1] == other[..n - 1];
      assert seqs[n - 1] == seqs[..n][n - 1] == other[..n][n - 1] == other[n - 1];
      CompileSame(seqs, other, n - 1);
    }
  }

  /** A longer word put in front of one it begins with is refused. */
  lemma LongFirstRefused(long: Sequence, short: Sequence, rest: seq<Sequence>)
    requires RegularPair(short, long) && NestedIn(short, long)
    ensures Compile([long, short] + rest).None?
  {
    var pair, other := [long, short], [long, short] + rest;
    assert TimersAgree(long, short) by {
      assert forall d: nat :: SharePrefix(short, long, d) == SharePrefix(long, short, d);
    }
    assert Compatible(long, short);
    NestedClashes(short, long);
    var _ := CompiledRepresents(pair, 2);
    assert Clashing(pair[0], pair[1]);
    assert pair[..2] == other[..2];
    CompileSame(pair, other, 2);
    CompileFails(other, 2, |other|);
  }

  /** The same sequences, with those at two places put in front. */
  lemma InFront(seqs: seq<Sequence>, i: nat, j: nat) returns (rest: seq<Sequence>)
    requires i < j < |seqs|
    ensures multiset([seqs[i], seqs[j]] + rest) == multiset([seqs[j], seqs[i]] + rest) == multiset(seqs)
  {
    rest := seqs[..i] + seqs[i + 1..j] + seqs[j + 1..];
    assert seqs == seqs[..i] + [seqs[i]] + seqs[i + 1..j] + [seqs[j]] + seqs[j + 1..];
  }

  /** Where one word begins with another, some order of the sequences is refused. */
  lemma NestedRefused(seqs: seq<Sequence>, i: nat, j: nat) returns (other: seq<Sequence>)
    requires i < j < |seqs| && RegularPair(seqs[i], seqs[j])
    requires NestedIn(seqs[i], seqs[j]) || NestedIn(seqs[j], seqs[i])
    ensures multiset(other) == multiset(seqs) && Compile(other).None?
  {
    var rest := InFront(seqs, i, j);
    if NestedIn(seqs[i], seqs[j]) {
      other := [seqs[j], seqs[i]] + rest;
      LongFirstRefused(seqs[j], seqs[i], rest);
    } else {
      other := [seqs[i], seqs[j]] + rest;
      assert RegularPair(seqs[j], seqs[i]) by {
        assert forall d: nat :: SharePrefix(seqs[i], seqs[j], d) == SharePrefix(seqs[j], seqs[i], d);
      }
      LongFirstRefused(seqs[i], seqs[j], rest);
    }
  }

  /** Every order of the sequences is accepted. */
  ghost predicate AnyOrder(seqs: seq<Sequence>) {
    forall other: seq<Sequence> :: multiset(other) == multiset(seqs) ==> Compile(other).Some?
  }

  /** Layers whose timers are regular, untimed ones among them, of any behaviour: all orders are accepted exactly when no
      word begins with another and sequences that start alike behave alike. */
  lemma EveryOrderAccepted(seqs: seq<Sequence>)
    requires TimersRegular(seqs)
    ensures AnyOrder(seqs) <==> PrefixFree(seqs) && BehaviorsAgree(seqs)
  {
    if PrefixFree(seqs) {
      PrefixFreeAcceptance(seqs);
      forall other: seq<Sequence> | multiset(other) == multiset(seqs)
        ensures Compile(other).Some? <==> BehaviorsAgree(seqs)
      {
        AcceptanceIgnoresOrder(seqs, other);
      }
    } else {
      var i, j :| 0 <= i < j < |seqs| &&
        !(TimersAgree(seqs[i], seqs[j]) && !NestedIn(seqs[i], seqs[j]) && !NestedIn(seqs[j], seqs[i]));
      assert RegularPair(seqs[i], seqs[j]);
      var other := NestedRefused(seqs, i, j);
    }
  }

  /** Once some order is accepted, the order does not matter exactly when no word begins with another. */
  lemma OrderMattersExactly(seqs: seq<Sequence>)
    requires TimersRegular(seqs) && Compile(seqs).Some?
    ensures AnyOrder(seqs) <==> PrefixFree(seqs)
  {
    EveryOrderAccepted(seqs);
    if PrefixFree(seqs) {
      PrefixFreeAcceptance(seqs);
    }
  }

  /** Layers without waits are regular. */
  lemma UntimedRegular(seqs: seq<Sequence>)
    requires forall m :: 0 <= m < |seqs| ==> Untimed(seqs[m])
    ensures TimersRegular(seqs)
  {
  }

  /** Default sequences are another matter: the order decides, and in the accepted order the longer word's second event
      completes it on HOME. */
  lemma DefaultOrderMatters(a: InputEvent, b: InputEvent, short: seq<Bind>, long: seq<Bind>)
    requires a != b
    ensures var one := Sequence(SequenceBehavior.Default, [Node(a, None)], short);
      var two := Sequence(SequenceBehavior.Default, [Node(a, None), Node(b, None)], long);
      && Compile([two, one]).None?
      && Compile([one, two]).Some?
      && b in Compile([one, two]).value[HOME_STATE_IDX].edges
      && Compile([one, two]).value[HOME_STATE_IDX].edges[b] == CompleteEdge(two, b)
  {
    var one := Sequence(SequenceBehavior.Default, [Node(a, None)], short);
    var two := Sequence(SequenceBehavior.Default, [Node(a, None), Node(b, None)], long);
    CompileNext([one, two], 0, HOME_BUILD);
    CompileNext([two, one], 0, HOME_BUILD);
    var b1 := SetEdge(HOME_BUILD, HOME_STATE_IDX, a, CompleteEdge(one, a));
    assert InsertPrefix(HOME_BUILD, one, 0) == Some((HOME_BUILD, HOME_STATE_IDX));
    assert InsertPrefix(HOME_BUILD, one, 1) == Some((b1, HOME_STATE_IDX));
    CompileNext([one, two], 1, b1);
    assert InsertPrefix(b1, two, 0) == Some((b1, HOME_STATE_IDX));
    assert InsertPrefix(b1, two, 1) == Some((b1, HOME_STATE_IDX));
    assert InsertPrefix(b1, two, 2) == Some((SetEdge(b1, HOME_STATE_IDX, b, CompleteEdge(two, b)), HOME_STATE_IDX));
    assert InsertPrefix(HOME_BUILD, two, 0) == Some((HOME_BUILD, HOME_STATE_IDX));
    assert InsertPrefix(HOME_BUILD, two, 1).Some?;
    assert InsertPrefix(HOME_BUILD, two, 2).Some?;
    var b2 := InsertPrefix(HOME_BUILD, two, 2).value.0;
    CompileNext([two, one], 1, b2);
    assert InsertPrefix(b2, one, 0) == Some((b2, HOME_STATE_IDX));
    assert InsertPrefix(b2, one, 1).None?;
  }
}
