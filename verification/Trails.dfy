/** Where a word leads in any accepted untimed layer, also when the automaton slides back onto HOME on the way. */
module Trails {
  import opened Options
  import opened Profiles
  import opened Automata
  import opened StateMachine
  import opened TreeShape
  import opened Trie
  import opened Acceptance

  /** The state reached from state `i` over the edges `word` spells. */
  function Trail(states: seq<State>, i: nat, word: seq<InputEvent>): Option<nat> {
    if word == [] then Some(i)
    else
      match Trail(states, i, word[..|word| - 1])
      case None => None
      case Some(j) => Target(states, j, OnEvent(word[|word| - 1]))
  }

  lemma TrailNext(states: seq<State>, i: nat, word: seq<InputEvent>, e: InputEvent)
    ensures Trail(states, i, word + [e]) ==
      if Trail(states, i, word).Some? then Target(states, Trail(states, i, word).value, OnEvent(e)) else None
  {
    assert (word + [e])[..|word|] == word;
  }

  lemma {:induction false} TrailAppend(states: seq<State>, i: nat, u: seq<InputEvent>, v: seq<InputEvent>)
    ensures Trail(states, i, u + v) ==
      if Trail(states, i, u).Some? then Trail(states, Trail(states, i, u).value, v) else None
    decreases |v|
  {
    if v == [] {
      assert u + v == u;
    } else {
      assert (u + v)[..|u + v| - 1] == u + v[..|v| - 1];
      TrailAppend(states, i, u, v[..|v| - 1]);
    }
  }

  /** A trail is there to stay. */
  lemma {:induction false} TrailKept(a: Build, b: Build, i: nat, word: seq<InputEvent>)
    requires Extends(a, b) && Trail(a.states, i, word).Some?
    ensures Trail(b.states, i, word) == Trail(a.states, i, word)
    decreases |word|
  {
    if word != [] {
      TrailKept(a, b, i, word[..|word| - 1]);
    }
  }

  // ---------- one sequence ----------

  /** Edges between states say nothing but what a Release sequence lets through, and arm no timer. */
  ghost predicate Plain(b: Build) {
    && |b.metadata| == |b.states| > 0 && b.metadata[HOME_STATE_IDX] == HOME_METADATA
    && forall i, e :: 0 <= i < |b.states| && e in b.states[i].edges ==> PlainEdge(b, e, b.states[i].edges[e])
  }

  predicate PlainEdge(b: Build, e: InputEvent, t: Transition) {
    t.newState == HOME_STATE_IDX ||
    (t.newState < |b.metadata| && t.timerMs.None? && t.outputs == Released(b.metadata[t.newState].behavior, e))
  }

  /** One step of an untimed sequence: where it goes there is an edge, of a state that behaves alike. */
  lemma NodeTrail(b: Build, s: Sequence, k: nat, cur: nat, b': Build, cur': nat)
    requires ValidBuild(b) && k < |s.nodes| && cur < |b.states| && Untimed(s) && Plain(b)
    requires InsertNode(b, s, k, cur) == Some((b', cur'))
    ensures Extends(b, b') && Plain(b') && Target(b'.states, cur, OnEvent(s.nodes[k].event)) == Some(cur')
    ensures k + 1 < |s.nodes| ==> b'.metadata[cur'].behavior == s.behavior
    ensures k + 1 == |s.nodes| ==> cur' == HOME_STATE_IDX && s.nodes[k].event !in b.states[cur].edges
    ensures k + 1 == |s.nodes| ==> b'.states[cur].edges[s.nodes[k].event] == CompleteEdge(s, s.nodes[k].event)
  {
    assert s.nodes[k].timer.None?;
  }

  /** From `b` the first `k` events of `s` lead to `cur` in `b'`, and nothing of `b` is lost. */
  ghost predicate Follows(b: Build, s: Sequence, k: nat, b': Build, cur: nat)
    requires k <= |s.nodes|
  {
    && ValidBuild(b') && cur < |b'.states| && Extends(b, b') && Plain(b')
    && Trail(b'.states, HOME_STATE_IDX, Word(s)[..k]) == Some(cur)
    && (k == |s.nodes| ==> cur == HOME_STATE_IDX)
    && (0 < k < |s.nodes| ==> b'.metadata[cur].behavior == s.behavior)
  }

  lemma NodeFollows(b: Build, s: Sequence, k: nat, b1: Build, cur1: nat, b': Build, cur': nat)
    requires k < |s.nodes| && Untimed(s) && Follows(b, s, k, b1, cur1) && InsertNode(b1, s, k, cur1) == Some((b', cur'))
    ensures Follows(b, s, k + 1, b', cur')
  {
    var word := Word(s)[..k];
    NodeTrail(b1, s, k, cur1, b', cur');
    ExtendsTransitive(b, b1, b');
    TrailKept(b1, b', HOME_STATE_IDX, word);
    TrailNext(b'.states, HOME_STATE_IDX, word, s.nodes[k].event);
    WordNext(s, k);
  }

  lemma {:induction false} PrefixFollows(b: Build, s: Sequence, k: nat, b': Build, cur': nat)
    requires ValidBuild(b) && k <= |s.nodes| && Untimed(s) && Plain(b) && InsertPrefix(b, s, k) == Some((b', cur'))
    ensures Follows(b, s, k, b', cur')
    decreases k
  {
    if k > 0 {
      var b1, cur1 := PrefixNext(b, s, k, b', cur');
      PrefixFollows(b, s, k - 1, b1, cur1);
      NodeFollows(b, s, k - 1, b1, cur1, b', cur');
    }
  }

  lemma StepExtends(b: Build, s: Sequence, k: nat, b': Build, cur': nat) returns (b1: Build, cur1: nat)
    requires ValidBuild(b) && 0 < k <= |s.nodes| && Untimed(s) && Plain(b) && InsertPrefix(b, s, k) == Some((b', cur'))
    ensures InsertPrefix(b, s, k - 1) == Some((b1, cur1)) && Extends(b1, b')
  {
    b1, cur1 := PrefixNext(b, s, k, b', cur');
    PrefixFollows(b, s, k - 1, b1, cur1);
    NodeTrail(b1, s, k - 1, cur1, b', cur');
  }

  /** Once in, the first nodes of a sequence stay while the others follow. */
  lemma {:induction false} PrefixExtends(b: Build, s: Sequence, k: nat, b1: Build, cur1: nat, k': nat, b': Build,
                                         cur': nat)
    requires ValidBuild(b) && k <= k' <= |s.nodes| && Untimed(s) && Plain(b)
    requires InsertPrefix(b, s, k) == Some((b1, cur1)) && InsertPrefix(b, s, k') == Some((b', cur'))
    ensures Extends(b1, b')
    decreases k'
  {
    if k < k' {
      var b2, cur2 := StepExtends(b, s, k', b', cur');
      PrefixExtends(b, s, k, b1, cur1, k' - 1, b2, cur2);
      ExtendsTransitive(b1, b2, b');
    } else {
      PrefixFollows(b, s, k, b1, cur1);
    }
  }

  // ---------- a whole layer ----------

  predicate UntimedLayer(seqs: seq<Sequence>) {
    forall m :: 0 <= m < |seqs| ==> Untimed(seqs[m])
  }

  lemma LayerPlain(seqs: seq<Sequence>, n: nat, b: Build)
    requires UntimedLayer(seqs) && n <= |seqs| && CompilePrefix(seqs, n) == Some(b)
    ensures Plain(b)
  {
    var inv := (b: Build) => Plain(b);
    forall m | 0 <= m < n
      ensures Keeps(seqs[m], inv)
    {
      forall b: Build, k: nat, cur: nat | GoesIn(b, seqs[m], k, cur) && inv(b)
        ensures inv(InsertNode(b, seqs[m], k, cur).value.0)
      {
        var (b', cur') := InsertNode(b, seqs[m], k, cur).value;
        NodeTrail(b, seqs[m], k, cur, b', cur');
      }
    }
    CompileKeeps(seqs, n, inv);
  }

  /** `b` is what the sequences before number `n` make; `b'` with that one too. */
  ghost predicate Inserts(seqs: seq<Sequence>, n: nat, b: Build, b': Build) {
    && UntimedLayer(seqs) && n < |seqs| && CompilePrefix(seqs, n) == Some(b) && CompilePrefix(seqs, n + 1) == Some(b')
    && Plain(b)
  }

  lemma SequenceIn(seqs: seq<Sequence>, n: nat, b: Build, b': Build) returns (cur: nat)
    requires Inserts(seqs, n, b, b')
    ensures InsertPrefix(b, seqs[n], |seqs[n].nodes|) == Some((b', cur)) && Follows(b, seqs[n], |seqs[n].nodes|, b', cur)
    ensures cur == HOME_STATE_IDX
  {
    CompileNext(seqs, n, b);
    cur := InsertPrefix(b, seqs[n], |seqs[n].nodes|).value.1;
    PrefixFollows(b, seqs[n], |seqs[n].nodes|, b', cur);
  }

  lemma NewEdge(b1: Build, s: Sequence, cur1: nat, b': Build, cur: nat)
    requires ValidBuild(b1) && Plain(b1) && Untimed(s) && s.nodes != [] && cur1 < |b1.states|
    requires InsertNode(b1, s, |s.nodes| - 1, cur1) == Some((b', cur))
    requires Trail(b1.states, HOME_STATE_IDX, Word(s)[..|s.nodes| - 1]) == Some(cur1)
    ensures Trail(b1.states, HOME_STATE_IDX, Word(s)).None?
  {
    var k := |s.nodes| - 1;
    NodeTrail(b1, s, k, cur1, b', cur);
    WordNext(s, k);
    assert Word(s)[..k + 1] == Word(s);
    TrailNext(b1.states, HOME_STATE_IDX, Word(s)[..k], s.nodes[k].event);
  }

  /** `b1` is a build between `b` and `b'` in which the word of `s` leads on to its last event, and no further. */
  ghost predicate JustBefore(b: Build, s: Sequence, b1: Build, b': Build) {
    && s.nodes != [] && Extends(b, b1) && Extends(b1, b')
    && Trail(b1.states, HOME_STATE_IDX, Word(s)).None?
    && Trail(b1.states, HOME_STATE_IDX, Word(s)[..|s.nodes| - 1]).Some?
  }

  lemma LastNode(b: Build, s: Sequence, b': Build, cur: nat) returns (b1: Build)
    requires ValidBuild(b) && Plain(b) && Untimed(s) && s.nodes != [] && InsertPrefix(b, s, |s.nodes|) == Some((b', cur))
    ensures JustBefore(b, s, b1, b')
  {
    var k := |s.nodes| - 1;
    var cur1;
    b1, cur1 := PrefixNext(b, s, k + 1, b', cur);
    PrefixFollows(b, s, k, b1, cur1);
    PrefixExtends(b, s, k, b1, cur1, k + 1, b', cur);
    NewEdge(b1, s, cur1, b', cur);
  }

  /** The last edge of a sequence is new: before that step its word led nowhere. */
  lemma LastIsNew(seqs: seq<Sequence>, n: nat, b: Build, b': Build) returns (b1: Build)
    requires Inserts(seqs, n, b, b') && seqs[n].nodes != []
    ensures JustBefore(b, seqs[n], b1, b')
  {
    var cur := SequenceIn(seqs, n, b, b');
    b1 := LastNode(b, seqs[n], b', cur);
  }

  /** The word of every sequence that is in leads home. */
  lemma WordLeadsHome(seqs: seq<Sequence>, q: nat, n: nat, b: Build)
    requires UntimedLayer(seqs) && q < n <= |seqs| && CompilePrefix(seqs, n) == Some(b)
    ensures Trail(b.states, HOME_STATE_IDX, Word(seqs[q])) == Some(HOME_STATE_IDX)
  {
    CompilationExtends(seqs, q, n);
    CompilationExtends(seqs, q + 1, n);
    var b0, b1 := CompilePrefix(seqs, q).value, CompilePrefix(seqs, q + 1).value;
    LayerPlain(seqs, q, b0);
    var cur := SequenceIn(seqs, q, b0, b1);
    assert Word(seqs[q])[..|seqs[q].nodes|] == Word(seqs[q]);
    TrailKept(b1, b, HOME_STATE_IDX, Word(seqs[q]));
  }

  // ---------- a Default sequence that goes on from where another is complete ----------

  /** The trail of `word` visits HOME for the last time after `j` events, short of its end. */
  ghost predicate LastVisit(states: seq<State>, word: seq<InputEvent>, j: nat) {
    && 0 < j < |word| && Trail(states, HOME_STATE_IDX, word[..j]) == Some(HOME_STATE_IDX)
    && forall i :: j < i < |word| ==> Trail(states, HOME_STATE_IDX, word[..i]) != Some(HOME_STATE_IDX)
  }

  lemma {:induction false} FindLastVisit(states: seq<State>, word: seq<InputEvent>, d: nat) returns (j: nat)
    requires 0 < d < |word| && Trail(states, HOME_STATE_IDX, word[..d]) == Some(HOME_STATE_IDX)
    ensures LastVisit(states, word, j)
    decreases |word| - d
  {
    if i :| d < i < |word| && Trail(states, HOME_STATE_IDX, word[..i]) == Some(HOME_STATE_IDX) {
      j := FindLastVisit(states, word, i);
    } else {
      j := d;
    }
  }

  /** A trail that can be walked in `a` visits HOME in `a` where it does later. */
  lemma VisitBefore(a: Build, b: Build, word: seq<InputEvent>, j: nat)
    requires Extends(a, b) && j <= |word| && Trail(a.states, HOME_STATE_IDX, word).Some?
    requires Trail(b.states, HOME_STATE_IDX, word[..j]) == Some(HOME_STATE_IDX)
    ensures Trail(a.states, HOME_STATE_IDX, word[..j]) == Some(HOME_STATE_IDX)
  {
    assert word == word[..j] + word[j..];
    TrailAppend(a.states, HOME_STATE_IDX, word[..j], word[j..]);
    TrailKept(a, b, HOME_STATE_IDX, word[..j]);
  }

  /** From a visit to HOME on, a trail is the trail of what follows. */
  lemma TrailRest(states: seq<State>, word: seq<InputEvent>, j: nat, rest: seq<InputEvent>)
    requires j <= |word| && rest == word[j..] && Trail(states, HOME_STATE_IDX, word[..j]) == Some(HOME_STATE_IDX)
    ensures Trail(states, HOME_STATE_IDX, word) == Trail(states, HOME_STATE_IDX, rest)
  {
    assert word == word[..j] + rest;
    TrailAppend(states, HOME_STATE_IDX, word[..j], rest);
  }

  /** A home trail is as long as what follows the last visit. */
  lemma RuleFillsRest(states: seq<State>, word: seq<InputEvent>, j: nat, rule: seq<InputEvent>, rest: seq<InputEvent>)
    requires LastVisit(states, word, j) && rest == word[j..] && rule != [] && rule <= rest
    requires Trail(states, HOME_STATE_IDX, rule) == Some(HOME_STATE_IDX)
    ensures rule == rest
  {
    TrailAppend(states, HOME_STATE_IDX, word[..j], rule);
    assert word[..j] + rule == word[..j + |rule|];
  }

  /** The build before sequence `n` and the one with it, on the way to the finished one. */
  lemma Stages(seqs: seq<Sequence>, n: nat, b: Build) returns (b0: Build, b': Build)
    requires UntimedLayer(seqs) && n < |seqs| && CompilePrefix(seqs, |seqs|) == Some(b)
    ensures Inserts(seqs, n, b0, b') && Extends(b0, b) && Extends(b', b)
  {
    CompilationExtends(seqs, n, |seqs|);
    CompilationExtends(seqs, n + 1, |seqs|);
    b0, b' := CompilePrefix(seqs, n).value, CompilePrefix(seqs, n + 1).value;
    LayerPlain(seqs, n, b0);
  }

  /** Where all but the last event can be walked early, the later visit to HOME is there early, and what follows it is
      no longer than the whole. */
  lemma RestEarly(b1: Build, b: Build, word: seq<InputEvent>, j: nat, rest: seq<InputEvent>)
    requires Extends(b1, b) && LastVisit(b.states, word, j) && rest == word[j..]
    requires Trail(b1.states, HOME_STATE_IDX, word[..|word| - 1]).Some?
    ensures Trail(b1.states, HOME_STATE_IDX, word) == Trail(b1.states, HOME_STATE_IDX, rest)
  {
    var walked := word[..|word| - 1];
    assert walked[..j] == word[..j];
    VisitBefore(b1, b, walked, j);
    TrailRest(b1.states, word, j, rest);
  }

  /** What follows the last visit to HOME leads nowhere before the last edge of sequence `n` is in. */
  lemma RestIsNew(seqs: seq<Sequence>, n: nat, j: nat, b: Build, rest: seq<InputEvent>) returns (b0: Build, b1: Build)
    requires UntimedLayer(seqs) && n < |seqs| && CompilePrefix(seqs, |seqs|) == Some(b)
    requires LastVisit(b.states, Word(seqs[n]), j) && rest == Word(seqs[n])[j..]
    ensures CompilePrefix(seqs, n) == Some(b0) && Extends(b0, b1) && Trail(b1.states, HOME_STATE_IDX, rest).None?
  {
    var b';
    b0, b' := Stages(seqs, n, b);
    b1 := LastIsNew(seqs, n, b0, b');
    ExtendsTransitive(b1, b', b);
    RestEarly(b1, b, Word(seqs[n]), j, rest);
  }

  /** A sequence put in before would have led home along it. */
  lemma NoEarlierRule(seqs: seq<Sequence>, n: nat, q: nat, j: nat, b: Build, rest: seq<InputEvent>)
    requires UntimedLayer(seqs) && q < n < |seqs| && CompilePrefix(seqs, |seqs|) == Some(b)
    requires LastVisit(b.states, Word(seqs[n]), j) && rest == Word(seqs[n])[j..]
    ensures Word(seqs[q]) != rest
  {
    var b0, b1 := RestIsNew(seqs, n, j, b, rest);
    if Word(seqs[q]) == rest {
      WordLeadsHome(seqs, q, n, b0);
      TrailKept(b0, b1, HOME_STATE_IDX, rest);
    }
  }

  /** A sequence put in later would have found its last edge there. */
  lemma NoLaterRule(seqs: seq<Sequence>, n: nat, q: nat, j: nat, b: Build, rest: seq<InputEvent>)
    requires UntimedLayer(seqs) && n < q < |seqs| && CompilePrefix(seqs, |seqs|) == Some(b)
    requires LastVisit(b.states, Word(seqs[n]), j) && rest == Word(seqs[n])[j..]
    ensures Word(seqs[q]) != rest
  {
    var b0, b' := Stages(seqs, q, b);
    WordLeadsHome(seqs, n, q, b0);
    VisitBefore(b0, b, Word(seqs[n]), j);
    TrailRest(b0.states, Word(seqs[n]), j, rest);
    if Word(seqs[q]) == rest {
      var b1 := LastIsNew(seqs, q, b0, b');
      TrailKept(b0, b1, HOME_STATE_IDX, rest);
    }
  }

  lemma NoOtherRule(seqs: seq<Sequence>, n: nat, q: nat, j: nat, b: Build, rest: seq<InputEvent>)
    requires UntimedLayer(seqs) && n < |seqs| && q < |seqs| && CompilePrefix(seqs, |seqs|) == Some(b)
    requires LastVisit(b.states, Word(seqs[n]), j) && rest == Word(seqs[n])[j..]
    ensures Word(seqs[q]) != rest
  {
    if q < n {
      NoEarlierRule(seqs, n, q, j, b, rest);
    } else if n < q {
      NoLaterRule(seqs, n, q, j, b, rest);
    } else {
      assert q == n && |rest| < |Word(seqs[q])|;
    }
  }

  /** No sequence's word is a beginning of what follows the last visit to HOME. */
  lemma NoRuleInside(seqs: seq<Sequence>, n: nat, q: nat, j: nat, b: Build, rest: seq<InputEvent>)
    requires UntimedLayer(seqs) && n < |seqs| && q < |seqs| && CompilePrefix(seqs, |seqs|) == Some(b)
    requires LastVisit(b.states, Word(seqs[n]), j) && rest == Word(seqs[n])[j..]
    ensures Word(seqs[q]) <= rest ==> seqs[q].nodes == []
  {
    NoOtherRule(seqs, n, q, j, b, rest);
    WordLeadsHome(seqs, q, |seqs|, b);
    if Word(seqs[q]) <= rest && seqs[q].nodes != [] {
      RuleFillsRest(b.states, Word(seqs[n]), j, Word(seqs[q]), rest);
    }
  }

  /** The edge on event number `k` of sequence `n`: it completes the sequence, goes home, or says nothing, if the sequence
      is a Default one. */
  ghost predicate EdgeAlong(states: seq<State>, s: Sequence, k: nat)
    requires k < |s.nodes|
  {
    var at := Trail(states, HOME_STATE_IDX, Word(s)[..k]);
    && at.Some? && at.value < |states| && s.nodes[k].event in states[at.value].edges
    && var t := states[at.value].edges[s.nodes[k].event];
    && Trail(states, HOME_STATE_IDX, Word(s)[..k + 1]) == Some(t.newState)
    && if k + 1 == |s.nodes| then t == CompleteEdge(s, s.nodes[k].event)
       else t.newState == HOME_STATE_IDX || (t.timerMs.None? && t.outputs == Released(s.behavior, s.nodes[k].event))
  }

  lemma EdgePutIn(b1: Build, s: Sequence, k: nat, cur1: nat, b2: Build, cur2: nat, b: Build)
    requires k < |s.nodes| && Untimed(s) && ValidBuild(b1) && Plain(b1) && cur1 < |b1.states|
    requires InsertNode(b1, s, k, cur1) == Some((b2, cur2)) && Extends(b2, b) && Plain(b)
    requires Trail(b2.states, HOME_STATE_IDX, Word(s)[..k]) == Some(cur1)
    ensures EdgeAlong(b.states, s, k)
  {
    var e := s.nodes[k].event;
    NodeTrail(b1, s, k, cur1, b2, cur2);
    TrailKept(b2, b, HOME_STATE_IDX, Word(s)[..k]);
    WordNext(s, k);
    TrailNext(b.states, HOME_STATE_IDX, Word(s)[..k], e);
    assert PlainEdge(b, e, b.states[cur1].edges[e]);
  }

  /** The first `k` events of a sequence that goes in can go in, and the event after them. */
  lemma NodeIn(b: Build, s: Sequence, k: nat, b': Build, cur: nat) returns (b1: Build, cur1: nat, b2: Build, cur2: nat)
    requires ValidBuild(b) && k < |s.nodes| && Untimed(s) && Plain(b) && InsertPrefix(b, s, |s.nodes|) == Some((b', cur))
    ensures ValidBuild(b1) && cur1 < |b1.states| && InsertNode(b1, s, k, cur1) == Some((b2, cur2))
    ensures Follows(b, s, k, b1, cur1) && Follows(b, s, k + 1, b2, cur2) && Extends(b1, b2) && Extends(b2, b')
  {
    if InsertPrefix(b, s, k + 1).None? {
      PrefixFails(s, b, k + 1, |s.nodes|);
    }
    b2, cur2 := InsertPrefix(b, s, k + 1).value.0, InsertPrefix(b, s, k + 1).value.1;
    b1, cur1 := PrefixNext(b, s, k + 1, b2, cur2);
    PrefixFollows(b, s, k, b1, cur1);
    PrefixFollows(b, s, k + 1, b2, cur2);
    PrefixExtends(b, s, k, b1, cur1, k + 1, b2, cur2);
    PrefixExtends(b, s, k + 1, b2, cur2, |s.nodes|, b', cur);
  }

  lemma EdgesAlong(seqs: seq<Sequence>, n: nat, k: nat, b: Build)
    requires UntimedLayer(seqs) && n < |seqs| && k < |seqs[n].nodes| && CompilePrefix(seqs, |seqs|) == Some(b)
    ensures EdgeAlong(b.states, seqs[n], k)
  {
    var s := seqs[n];
    var b0, b' := Stages(seqs, n, b);
    LayerPlain(seqs, |seqs|, b);
    var cur := SequenceIn(seqs, n, b0, b');
    var b1, cur1, b2, cur2 := NodeIn(b0, s, k, b', cur);
    ExtendsTransitive(b2, b', b);
    TrailKept(b1, b2, HOME_STATE_IDX, Word(s)[..k]);
    EdgePutIn(b1, s, k, cur1, b2, cur2, b);
  }

  /** The state that an event of sequence `n` leads to, not the last one, is known to behave as the sequence does. */
  lemma BehaviorAlong(seqs: seq<Sequence>, n: nat, k: nat, b: Build) returns (t: nat)
    requires UntimedLayer(seqs) && n < |seqs| && k + 1 < |seqs[n].nodes| && CompilePrefix(seqs, |seqs|) == Some(b)
    ensures Trail(b.states, HOME_STATE_IDX, Word(seqs[n])[..k + 1]) == Some(t)
    ensures t < |b.metadata| && b.metadata[t].behavior == seqs[n].behavior
  {
    var s := seqs[n];
    var b0, b' := Stages(seqs, n, b);
    var cur := SequenceIn(seqs, n, b0, b');
    var _, _, b2, cur2 := NodeIn(b0, s, k, b', cur);
    ExtendsTransitive(b2, b', b);
    TrailKept(b2, b, HOME_STATE_IDX, Word(s)[..k + 1]);
    t := cur2;
  }

  /** Where two sequences start alike and both go on, they behave alike. */
  lemma StartersAgree(seqs: seq<Sequence>, q: nat, b: Build, first: seq<InputEvent>, t: nat)
    requires UntimedLayer(seqs) && q < |seqs| && |seqs[q].nodes| > 1 && CompilePrefix(seqs, |seqs|) == Some(b)
    requires first == Word(seqs[q])[..1] && Trail(b.states, HOME_STATE_IDX, first) == Some(t)
    ensures t < |b.metadata| && b.metadata[t].behavior == seqs[q].behavior
  {
    var _ := BehaviorAlong(seqs, q, 0, b);
  }

  /** The state behind the first event after a visit to HOME behaves as the sequence, if that is a Default one. */
  lemma FirstAfterVisit(seqs: seq<Sequence>, n: nat, j: nat, b: Build, rest: seq<InputEvent>) returns (t: nat)
    requires UntimedLayer(seqs) && n < |seqs| && CompilePrefix(seqs, |seqs|) == Some(b)
    requires seqs[n].behavior == SequenceBehavior.Default
    requires LastVisit(b.states, Word(seqs[n]), j) && rest == Word(seqs[n])[j..]
    ensures Trail(b.states, HOME_STATE_IDX, rest[..1]) == Some(t)
    ensures t < |b.metadata| && b.metadata[t].behavior == SequenceBehavior.Default
  {
    var word := Word(seqs[n]);
    assert word[..j + 1][..j] == word[..j] && word[..j + 1][j..] == rest[..1];
    TrailRest(b.states, word[..j + 1], j, rest[..1]);
    if |rest| > 1 {
      t := BehaviorAlong(seqs, n, j, b);
    } else {
      WordLeadsHome(seqs, n, |seqs|, b);
      assert word[..j + 1] == word;
      LayerPlain(seqs, |seqs|, b);
      t := HOME_STATE_IDX;
    }
  }

  lemma ProperStart(rest: seq<InputEvent>, word: seq<InputEvent>)
    requires rest != [] && rest <= word && word != rest
    ensures |rest| < |word| && rest[..1] == word[..1]
  {
  }

  /** Every sequence that starts with what follows the last visit to HOME is a Default one. */
  lemma ReadersDefault(seqs: seq<Sequence>, n: nat, q: nat, j: nat, b: Build, rest: seq<InputEvent>)
    requires UntimedLayer(seqs) && n < |seqs| && q < |seqs| && CompilePrefix(seqs, |seqs|) == Some(b)
    requires seqs[n].behavior == SequenceBehavior.Default
    requires LastVisit(b.states, Word(seqs[n]), j) && rest == Word(seqs[n])[j..] && rest <= Word(seqs[q])
    ensures seqs[q].behavior == SequenceBehavior.Default
  {
    NoOtherRule(seqs, n, q, j, b, rest);
    var t := FirstAfterVisit(seqs, n, j, b, rest);
    ProperStart(rest, Word(seqs[q]));
    StartersAgree(seqs, q, b, rest[..1], t);
  }

  /** Event number `i` of `rest` says nothing; the last one runs the binds of `s`. */
  ghost predicate SilentStep(states: seq<State>, rest: seq<InputEvent>, i: nat, s: Sequence)
    requires i < |rest|
  {
    var at := Trail(states, HOME_STATE_IDX, rest[..i]);
    && at.Some? && at.value < |states| && rest[i] in states[at.value].edges
    && var t := states[at.value].edges[rest[i]];
    && Trail(states, HOME_STATE_IDX, rest[..i + 1]) == Some(t.newState) && t.timerMs.None?
    && t.outputs == if i + 1 == |rest| then EmitAll(s.binds) else []
  }

  /** From HOME back to HOME the events of `rest` go unanswered, except that the last one runs the binds of `s`. */
  ghost predicate SilentPath(states: seq<State>, rest: seq<InputEvent>, s: Sequence) {
    && rest != [] && Trail(states, HOME_STATE_IDX, rest) == Some(HOME_STATE_IDX)
    && forall i :: 0 <= i < |rest| ==> SilentStep(states, rest, i, s)
  }

  lemma SilentAt(states: seq<State>, s: Sequence, j: nat, rest: seq<InputEvent>, i: nat)
    requires LastVisit(states, Word(s), j) && rest == Word(s)[j..] && i < |rest|
    requires s.behavior == SequenceBehavior.Default && EdgeAlong(states, s, j + i)
    ensures SilentStep(states, rest, i, s)
  {
    var word := Word(s);
    assert word[..j + i][..j] == word[..j] && word[..j + i][j..] == rest[..i];
    assert word[..j + i + 1][..j] == word[..j] && word[..j + i + 1][j..] == rest[..i + 1];
    TrailRest(states, word[..j + i], j, rest[..i]);
    TrailRest(states, word[..j + i + 1], j, rest[..i + 1]);
    assert [] + EmitAll(s.binds) == EmitAll(s.binds);
  }

  /** A Default sequence that goes on from where an earlier one is complete: the events after the last visit to HOME run its
      binds all by themselves, though they are not the beginning of any sequence that ends there. */
  lemma Collapses(seqs: seq<Sequence>, m: nat, n: nat, b: Build) returns (rest: seq<InputEvent>)
    requires UntimedLayer(seqs) && m < n < |seqs| && CompilePrefix(seqs, |seqs|) == Some(b)
    requires seqs[n].behavior == SequenceBehavior.Default && seqs[m].nodes != [] && Word(seqs[m]) < Word(seqs[n])
    ensures SilentPath(b.states, rest, seqs[n])
    ensures rest[0] in Word(seqs[n])
    ensures forall q :: 0 <= q < |seqs| && seqs[q].nodes != [] ==> !(Word(seqs[q]) <= rest)
    ensures forall q :: 0 <= q < |seqs| && rest <= Word(seqs[q]) ==> seqs[q].behavior == SequenceBehavior.Default
  {
    var word, d := Word(seqs[n]), |Word(seqs[m])|;
    WordLeadsHome(seqs, m, |seqs|, b);
    WordLeadsHome(seqs, n, |seqs|, b);
    assert word[..d] == Word(seqs[m]);
    var j := FindLastVisit(b.states, word, d);
    rest := word[j..];
    TrailRest(b.states, word, j, rest);
    forall i | 0 <= i < |rest|
      ensures SilentStep(b.states, rest, i, seqs[n])
    {
      EdgesAlong(seqs, n, j + i, b);
      SilentAt(b.states, seqs[n], j, rest, i);
    }
    forall q | 0 <= q < |seqs| && seqs[q].nodes != []
      ensures !(Word(seqs[q]) <= rest)
    {
      NoRuleInside(seqs, n, q, j, b, rest);
    }
    forall q | 0 <= q < |seqs| && rest <= Word(seqs[q])
      ensures seqs[q].behavior == SequenceBehavior.Default
    {
      ReadersDefault(seqs, n, q, j, b, rest);
    }
  }
}
