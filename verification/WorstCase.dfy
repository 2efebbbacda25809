/** The bound on calls is attained: for every number of held events there is an accepted profile on which one key
    causes that many. */
module WorstCase {
  import opened Options
  import opened Profiles
  import opened Automata
  import StateMachine
  import opened Trie
  import opened Acceptance
  import opened Outputs
  import opened MapperModel
  import opened Replaying
  import opened Profiling
  import opened MapperRuns
  import opened Matching
  import opened Refinement
  import opened Divergence
  import EndToEnd

  function Codes(i: nat, j: nat): (codes: seq<KeyCode>)
    requires i <= j
    ensures |codes| == j - i && forall k :: 0 <= k < j - i ==> codes[k] == i + k
  {
    seq(j - i, k requires 0 <= k < j - i => i + k)
  }

  /** Presses of the keys from i up to j, j excluded. */
  function Keys(i: nat, j: nat): (word: seq<InputEvent>)
    requires i <= j
    ensures |word| == j - i && forall k :: 0 <= k < j - i ==> word[k] == Key(i + k)
  {
    seq(j - i, k requires 0 <= k < j - i => Key(i + k))
  }

  /** Sequence number i: keys i to p - i - 1, and then key p, which never comes. */
  function Link(p: nat, i: nat): SequenceTrigger
    requires 2 * i < p
  {
    SequenceTrigger(SequenceBehavior.Default, Triggers(Codes(i, p - i) + [p]), [])
  }

  /** Each sequence's word, given back, starts the next one and fails it with its last event. */
  function Chain(p: nat): Profile {
    Profile("", [Layer("", [], seq((p + 1) / 2, i requires 0 <= i < (p + 1) / 2 => Link(p, i)))], 0)
  }

  predicate LinkOk(s: Sequence, p: nat, i: nat) {
    2 * i < p && s == Sequence(SequenceBehavior.Default, KeyNodes(Codes(i, p - i) + [p]), [])
  }

  predicate IsChain(seqs: seq<Sequence>, p: nat) {
    && |seqs| == (p + 1) / 2
    && forall i {:trigger LinkOk(seqs[i], p, i)} :: 0 <= i < |seqs| ==> LinkOk(seqs[i], p, i)
  }

  lemma ChainParsed(p: nat)
    ensures WellFormed(Chain(p)) && IsChain(ParseLayer(Chain(p).layers[0]), p)
  {
    var layer := Chain(p).layers[0];
    forall i | 0 <= i < |layer.sequenceRemappings|
      ensures NormalForm(layer.sequenceRemappings[i].sequence) && LinkOk(Parse(layer.sequenceRemappings[i]), p, i)
    {
      TriggersParsed(Codes(i, p - i) + [p]);
    }
    assert NormalLayer(layer);
  }

  lemma LinkWord(s: Sequence, p: nat, i: nat)
    requires LinkOk(s, p, i)
    ensures |s.nodes| == p - 2 * i + 1 && Word(s) == Keys(i, p - i) + [Key(p)] && Word(s)[0] == Key(i)
    ensures Untimed(s)
  {
  }

  lemma SameLink(seqs: seq<Sequence>, p: nat, i: nat, j: nat, word: seq<InputEvent>)
    requires IsChain(seqs, p) && i < |seqs| && j < |seqs| && word != [] && word <= Word(seqs[i]) && word <= Word(seqs[j])
    ensures i == j
  {
    assert LinkOk(seqs[i], p, i) && LinkOk(seqs[j], p, j);
    LinkWord(seqs[i], p, i);
    LinkWord(seqs[j], p, j);
    assert word[0] == Key(i) && word[0] == Key(j);
  }

  /** The words start with different keys, so the profile is sound and accepted. */
  lemma ChainSound(p: nat)
    ensures Sound(Chain(p)) && CompileProfile(Chain(p)).Some?
  {
    ChainParsed(p);
    var layer := Chain(p).layers[0];
    var seqs := ParseLayer(layer);
    forall i, j | 0 <= i < j < |seqs|
      ensures TimersAgree(seqs[i], seqs[j]) && !NestedIn(seqs[i], seqs[j]) && !NestedIn(seqs[j], seqs[i])
      ensures seqs[i].nodes != [] && seqs[j].nodes != [] && seqs[i].nodes[0].event != seqs[j].nodes[0].event
    {
      assert LinkOk(seqs[i], p, i) && LinkOk(seqs[j], p, j);
      LinkWord(seqs[i], p, i);
      LinkWord(seqs[j], p, j);
      assert Word(seqs[i])[0] == Key(i) && Word(seqs[j])[0] == Key(j);
    }
    PrefixFreeAcceptance(seqs);
    assert !RepeatsTrigger(layer);
    ProfileRejected(Chain(p));
  }

  // ---------- what the scan finds ----------

  lemma ScanLink(seqs: seq<Sequence>, p: nat, i: nat, word: seq<InputEvent>)
    requires IsChain(seqs, p) && i < |seqs| && word != [] && word <= Word(seqs[i])
    ensures Scan(seqs, word) == Some(i)
  {
    var found := Scan(seqs, word);
    SameLink(seqs, p, i, found.value, word);
  }

  /** A word that starts with key n, or goes on from link i with anything but its last key, starts no link's word. */
  lemma StartsNone(seqs: seq<Sequence>, p: nat, word: seq<InputEvent>, n: nat, m: nat)
    requires IsChain(seqs, p) && m < |seqs| && word != [] && word[0] == Key(n)
    requires 2 * n < p ==> |word| == p - 2 * n + 1 && word[p - 2 * n] != Key(p)
    ensures !(word <= Word(seqs[m]))
  {
    assert LinkOk(seqs[m], p, m);
    LinkWord(seqs[m], p, m);
    assert Word(seqs[m])[0] == Key(m) && Word(seqs[m])[p - 2 * m] == Key(p);
  }

  lemma ScanNone(seqs: seq<Sequence>, p: nat, word: seq<InputEvent>, n: nat)
    requires IsChain(seqs, p) && word != [] && word[0] == Key(n)
    requires 2 * n < p ==> |word| == p - 2 * n + 1 && word[p - 2 * n] != Key(p)
    ensures Scan(seqs, word).None?
  {
    forall m | 0 <= m < |seqs|
      ensures !(word <= Word(seqs[m]))
    {
      StartsNone(seqs, p, word, n, m);
    }
  }

  // ---------- single events ----------

  /** Mapper and matcher run the chain in step. */
  ghost predicate Stands(w: World, c: Core, x: Matcher, p: nat) {
    Sim(w, c, x) && w.p == Chain(p) && !c.paused && !x.waited
  }

  lemma StandsFacts(w: World, c: Core, x: Matcher, p: nat)
    requires Stands(w, c, x, p)
    ensures MatcherOk(w.p, x) && x.layer == 0 && IsChain(Rules(w.p, x), p) && Ok(w.cp, c) && Holding(w.cp, c)
    ensures !Blocked(w.p, x)
  {
    ChainParsed(p);
    FallbackByScan(w, c, x);
    if Reading(w.p, x).Some? {
      var m := Scan(Rules(w.p, x), x.word).value;
      assert LinkOk(Rules(w.p, x)[m], p, m);
      LinkWord(Rules(w.p, x)[m], p, m);
    }
  }

  lemma ScanNext(seqs: seq<Sequence>, p: nat, i: nat, j: nat, word: seq<InputEvent>)
    requires IsChain(seqs, p) && i <= j < p - i && word == Keys(i, j)
    ensures i < |seqs| && Scan(seqs, word + [Key(j)]) == Some(i) && word + [Key(j)] == Keys(i, j + 1)
    ensures !IsComplete(seqs[i], word + [Key(j)]) && seqs[i].behavior == SequenceBehavior.Default
    ensures TimerAfter(seqs[i], |word| + 1).None?
  {
    assert LinkOk(seqs[i], p, i);
    LinkWord(seqs[i], p, i);
    assert word + [Key(j)] == Keys(i, j + 1) == Word(seqs[i])[..j + 1 - i];
    ScanLink(seqs, p, i, word + [Key(j)]);
  }

  /** The matcher takes the next event of a Default sequence without a wait behind it. */
  lemma MatchNext(p: Profile, clock: Clock, x: Matcher, m: nat, e: InputEvent)
    requires MatcherOk(p, x) && !x.paused && !Blocked(p, x) && Scan(Rules(p, x), x.word + [e]) == Some(m)
    requires var s := Rules(p, x)[m]; s.behavior == SequenceBehavior.Default && !IsComplete(s, x.word + [e])
    ensures MatchEvent(p, clock, x, e).word == x.word + [e] && !MatchEvent(p, clock, x, e).waited
  {
  }

  /** A call that replays nothing is a single one. */
  lemma SingleCall(cp: Compiled, clock: Clock, c: Core, e: InputEvent)
    requires Ok(cp, c) && !c.paused && Holding(cp, c) && RedoEvents(Chosen(cp, c, e).outputs, Some(e)) == []
    ensures Process(cp, clock, c, e).calls == c.calls + 1
  {
    var _, _ := ProcessShape(cp, clock, c, e);
  }

  lemma EdgeIsSingle(w: World, clock: Clock, c: Core, x: Matcher, m: nat, e: InputEvent)
    requires Sim(w, c, x) && !c.paused && MatcherOk(w.p, x) && !Blocked(w.p, x) && Holding(w.cp, c)
    requires Scan(Rules(w.p, x), x.word + [e]) == Some(m)
    requires var s := Rules(w.p, x)[m]; s.behavior == SequenceBehavior.Default && !IsComplete(s, x.word + [e])
    ensures Process(w.cp, clock, c, e).calls == c.calls + 1
  {
    ChosenByScan(w, c, x, e);
    SingleCall(w.cp, clock, c, e);
  }

  /** The next key of link i is held as well, at the cost of its own call. */
  lemma Extends(w: World, clock: Clock, c: Core, x: Matcher, p: nat, i: nat, j: nat, r: Core) returns (x': Matcher)
    requires Stands(w, c, x, p) && i <= j < p - i && x.word == Keys(i, j)
    requires Ok(w.cp, c) && r == Process(w.cp, clock, c, Key(j))
    ensures Stands(w, r, x', p) && x'.word == Keys(i, j + 1) && r.calls == c.calls + 1
  {
    StandsFacts(w, c, x, p);
    ScanNext(Rules(w.p, x), p, i, j, x.word);
    EdgeIsSingle(w, clock, c, x, i, Key(j));
    MatchNext(w.p, clock, x, i, Key(j));
    SimEvent(w, clock, c, x, Key(j));
    x' := MatchEvent(w.p, clock, x, Key(j));
  }

  lemma HomeIsSingle(w: World, clock: Clock, c: Core, x: Matcher, e: InputEvent)
    requires Sim(w, c, x) && !c.paused && x.word == [] && MatcherOk(w.p, x) && Holding(w.cp, c)
    requires Scan(Rules(w.p, x), [e]).None? && !x.waited
    ensures Process(w.cp, clock, c, e).calls == c.calls + 1
  {
    assert x.word + [e] == [e];
    ChosenByScan(w, c, x, e);
    FallbackByScan(w, c, x);
    OneEvent(None, Some(e));
    SingleCall(w.cp, clock, c, e);
  }

  /** A key that starts nothing is passed on, at the cost of its own call. */
  lemma Passes(w: World, clock: Clock, c: Core, x: Matcher, p: nat, n: nat, r: Core) returns (x': Matcher)
    requires Stands(w, c, x, p) && x.word == [] && 2 * n >= p
    requires Ok(w.cp, c) && r == Process(w.cp, clock, c, Key(n))
    ensures Stands(w, r, x', p) && x'.word == [] && r.calls == c.calls + 1
  {
    StandsFacts(w, c, x, p);
    ScanNone(Rules(w.p, x), p, [Key(n)], n);
    HomeIsSingle(w, clock, c, x, Key(n));
    MatchNothing(w.p, clock, x, Key(n));
    SimEvent(w, clock, c, x, Key(n));
    x' := MatchEvent(w.p, clock, x, Key(n));
  }

  lemma MatchNothing(p: Profile, clock: Clock, x: Matcher, e: InputEvent)
    requires MatcherOk(p, x) && !x.paused && x.word == [] && !x.waited && Scan(Rules(p, x), [e]).None?
    ensures MatchEvent(p, clock, x, e).word == [] && !MatchEvent(p, clock, x, e).waited
  {
    assert x.word + [e] == [e];
    var x1 := Note(Reset(x), Dropped(HeldWord(p, x)));
    assert MatchEvent(p, clock, x, e) == Abandon(p, clock, x, Some(e)) == Pass(p, clock, x1, e);
  }

  // ---------- failing links ----------

  lemma ReadsLink(seqs: seq<Sequence>, p: nat, i: nat, word: seq<InputEvent>)
    requires IsChain(seqs, p) && 2 * i < p && word == Keys(i, p - i)
    ensures i < |seqs| && Scan(seqs, word) == Some(i) && seqs[i].behavior == SequenceBehavior.Default
    ensures word[1..] == Keys(i + 1, p - i)
  {
    assert LinkOk(seqs[i], p, i);
    LinkWord(seqs[i], p, i);
    assert word == Word(seqs[i])[..p - 2 * i];
    ScanLink(seqs, p, i, word);
  }

  /** All keys of link i are held and something else comes: the fallback is taken. */
  lemma {:induction false} FailingFallback(w: World, c: Core, x: Matcher, p: nat, i: nat, n: nat)
    requires Stands(w, c, x, p) && 2 * i < p && x.word == Keys(i, p - i) && n != p
    ensures c.layer < |w.cp.states| && c.state < |w.cp.states[c.layer]|
    ensures Chosen(w.cp, c, Key(n)) == Fallback(SequenceBehavior.Default, x.word)
    ensures RedoEvents(Chosen(w.cp, c, Key(n)).outputs, Some(Key(n))) == Keys(i + 1, p - i)
  {
    StandsFacts(w, c, x, p);
    var seqs := Rules(w.p, x);
    ScanNone(seqs, p, x.word + [Key(n)], i);
    ReadsLink(seqs, p, i, x.word);
    ChosenByScan(w, c, x, Key(n));
    FallbackByScan(w, c, x);
    FallbackEvents(SequenceBehavior.Default, x.word, Some(Key(n)));
  }

  lemma GivenBack(w: World, clock: Clock, c: Core, x: Matcher, p: nat, e: InputEvent, t: Transition,
                  c': Core) returns (x': Matcher)
    requires Stands(w, c, x, p) && x.word != [] && t == Fallback(SequenceBehavior.Default, x.word)
    requires CoreOk(w.cp, Enter(clock, c, t)) && OutputsBelow(t.outputs, |w.cp.states|)
    requires c' == RunOutputs(w.cp, clock, Enter(clock, c, t), t.outputs, Some(e))
    ensures Stands(w, c', x', p) && x'.word == []
  {
    StandsFacts(w, c, x, p);
    SimReset(w, c, x);
    SimGiveBack(w, clock, Enter(clock, c, t), x, Some(e));
    x' := GiveBack(w.p, clock, x, Some(e));
    var _, _, _ := LayerFacts(w, c', x');
  }

  lemma FirstCall(cp: Compiled, clock: Clock, c: Core, e: InputEvent, rest: seq<InputEvent>, events: seq<InputEvent>,
                  r: Core)
      returns (c': Core)
    requires Ok(cp, c) && !c.paused && Holding(cp, c) && events == [e] + rest && r == ProcessAll(cp, clock, c, events)
    ensures c' == Process(cp, clock, c, e) && Ok(cp, c') && !c'.paused && Holding(cp, c')
    ensures r == ProcessAll(cp, clock, c', rest)
  {
    c' := Process(cp, clock, c, e);
    assert events[1..] == rest;
  }

  /** What is left to come before link i fails, from key j on: its own keys, and then key n. */
  function ToCome(p: nat, i: nat, j: nat, n: nat): seq<InputEvent>
    requires i <= j <= p - i
  {
    Keys(j, p - i) + [Key(n)]
  }

  lemma ToComeNext(p: nat, i: nat, j: nat, n: nat)
    requires i <= j <= p - i
    ensures j < p - i ==> ToCome(p, i, j, n) == [Key(j)] + ToCome(p, i, j + 1, n)
    ensures j == p - i ==> ToCome(p, i, j, n) == [Key(n)] + []
  {
  }

  /** The call itself, before anything is replayed. */
  lemma FailsAtOnce(w: World, clock: Clock, c: Core, x: Matcher, p: nat, i: nat, n: nat, r: Core, rest: seq<InputEvent>)
      returns (c': Core, x': Matcher)
    requires Stands(w, c, x, p) && 2 * i < p && x.word == Keys(i, p - i) && n != p && rest == Keys(i + 1, p - i)
    requires Ok(w.cp, c) && r == Process(w.cp, clock, c, Key(n))
    ensures Stands(w, c', x', p) && x'.word == [] && c'.calls == c.calls + 1
    ensures Ok(w.cp, c') && Holding(w.cp, c') && r == ProcessAll(w.cp, clock, c', rest)
  {
    StandsFacts(w, c, x, p);
    FailingFallback(w, c, x, p, i, n);
    var redo: seq<InputEvent>;
    c', redo := ProcessShape(w.cp, clock, c, Key(n));
    x' := GivenBack(w, clock, c.(calls := c.calls + 1), x, p, Key(n), Chosen(w.cp, c, Key(n)), c');
    StandsFacts(w, c', x', p);
  }

  lemma NoKeys(k: nat)
    ensures Keys(k, k) == []
  {
  }

  /** Key n makes link i fail, if there is a link i, and starts nothing otherwise. */
  predicate Breaks(p: nat, i: nat, n: nat) {
    if 2 * i < p then n != p else n == i
  }

  /** The calls from key j of link i on: one for each key left, one for key n, and what that one makes replay. */
  function CallsLeft(p: nat, i: nat, j: nat): nat
    requires i <= j <= p - i
  {
    p - i - j + 1 + Quarter(p - 2 * i)
  }

  /** What a failing link gives back runs through the next link and fails it. */
  lemma NextLink(p: nat, i: nat, k: nat) returns (n: nat, rest: seq<InputEvent>)
    requires k == i + 1 && 2 * k <= p
    ensures rest == Keys(i + 1, p - i) && rest == ToCome(p, k, k, n) && Keys(k, k) == [] && Breaks(p, k, n)
    ensures CallsLeft(p, k, k) == Quarter(p - 2 * i)
  {
    n, rest := p - k, Keys(i + 1, p - i);
  }

  lemma FailsLast(w: World, clock: Clock, c: Core, x: Matcher, p: nat, i: nat, n: nat, r: Core) returns (x': Matcher)
    requires Stands(w, c, x, p) && 2 * i + 1 == p && x.word == Keys(i, p - i) && n != p
    requires Ok(w.cp, c) && r == Process(w.cp, clock, c, Key(n))
    ensures Stands(w, r, x', p) && x'.word == [] && r.calls == c.calls + 1
  {
    NoKeys(i + 1);
    var c1, x1 := FailsAtOnce(w, clock, c, x, p, i, n, r, []);
    x' := x1;
  }

  /** Link i fails: its own call, and then its other keys run through link i + 1, which fails at the last of them. */
  lemma {:induction false} Fails(w: World, clock: Clock, c: Core, x: Matcher, p: nat, i: nat, n: nat, r: Core,
                                 k: nat) returns (x': Matcher)
    requires Stands(w, c, x, p) && k == i + 1 && 2 * k <= p && x.word == Keys(i, p - i) && n != p
    requires Ok(w.cp, c) && r == Process(w.cp, clock, c, Key(n))
    ensures Stands(w, r, x', p) && x'.word == [] && r.calls == c.calls + 1 + Quarter(p - 2 * i)
    decreases p - 2 * i, 0
  {
    var n', rest := NextLink(p, i, k);
    var c1, x1 := FailsAtOnce(w, clock, c, x, p, i, n, r, rest);
    x' := RunsThrough(w, clock, c1, x1, p, k, k, n', rest, r);
  }

  /** From HOME or within link i: the rest of its keys are held, and then key n makes it fail. */
  lemma {:induction false} RunsThrough(w: World, clock: Clock, c: Core, x: Matcher, p: nat, i: nat, j: nat, n: nat,
                                       events: seq<InputEvent>, r: Core)
      returns (x': Matcher)
    requires Stands(w, c, x, p) && i <= j <= p - i && x.word == Keys(i, j) && events == ToCome(p, i, j, n)
    requires Breaks(p, i, n)
    requires Ok(w.cp, c) && Holding(w.cp, c) && r == ProcessAll(w.cp, clock, c, events)
    ensures Stands(w, r, x', p) && x'.word == [] && r.calls == c.calls + CallsLeft(p, i, j)
    decreases p - 2 * i, 1 + p - i - j
  {
    ToComeNext(p, i, j, n);
    if j < p - i {
      var rest := ToCome(p, i, j + 1, n);
      var c1 := FirstCall(w.cp, clock, c, Key(j), rest, events, r);
      var x1 := Extends(w, clock, c, x, p, i, j, c1);
      x' := RunsThrough(w, clock, c1, x1, p, i, j + 1, n, rest, r);
    } else {
      var c1 := FirstCall(w.cp, clock, c, Key(n), [], events, r);
      if 2 * i + 1 == p {
        x' := FailsLast(w, clock, c, x, p, i, n, c1);
      } else if 2 * i < p {
        x' := Fails(w, clock, c, x, p, i, n, c1, i + 1);
      } else {
        x' := Passes(w, clock, c, x, p, i, c1);
      }
    }
  }

  // ---------- the whole chain ----------

  lemma KeysNext(j: nat, p: nat) returns (tail: seq<InputEvent>)
    requires j < p
    ensures tail == Keys(j + 1, p) && Keys(j, p) == [Key(j)] + tail
  {
    tail := Keys(j + 1, p);
  }

  lemma {:induction false} Reaches(w: World, clock: Clock, c: Core, x: Matcher, p: nat, j: nat, rest: seq<InputEvent>,
                                   r: Core)
      returns (x': Matcher)
    requires Stands(w, c, x, p) && j <= p && x.word == Keys(0, j) && rest == Keys(j, p)
    requires Ok(w.cp, c) && Holding(w.cp, c) && r == ProcessAll(w.cp, clock, c, rest)
    ensures Stands(w, r, x', p) && x'.word == Keys(0, p)
    decreases p - j
  {
    if j == p {
      NoKeys(p);
      x' := x;
    } else {
      var tail := KeysNext(j, p);
      var c1 := FirstCall(w.cp, clock, c, Key(j), tail, rest, r);
      var x1 := Extends(w, clock, c, x, p, 0, j, c1);
      x' := Reaches(w, clock, c1, x1, p, j + 1, tail, r);
    }
  }

  lemma ChainHolds(w: World, c: Core, x: Matcher, p: nat)
    requires Stands(w, c, x, p) && x.word == Keys(0, p)
    ensures Ok(w.cp, c) && Holding(w.cp, c) && |HeldBy(w.cp, c)| == p
  {
    StandsFacts(w, c, x, p);
    EndToEnd.HeldByScan(w, c, x);
    if p > 0 {
      ReadsLink(Rules(w.p, x), p, 0, x.word);
    }
  }

  lemma LastKeyCost(w: World, clock: Clock, c: Core, x: Matcher, p: nat, r: Core)
    requires Stands(w, c, x, p) && x.word == Keys(0, p)
    requires Ok(w.cp, c) && r == Process(w.cp, clock, c, Key(p + 1))
    ensures r.calls == c.calls + 1 + Quarter(p)
  {
    if p == 0 {
      var _ := Passes(w, clock, c, x, p, p + 1, r);
    } else if p == 1 {
      var _ := FailsLast(w, clock, c, x, p, 0, p + 1, r);
    } else {
      var _ := Fails(w, clock, c, x, p, 0, p + 1, r, 1);
    }
  }

  lemma ChainStarts(p: nat) returns (w: World, x: Matcher)
    ensures Sound(Chain(p)) && CompileProfile(Chain(p)) == Some(w.cp)
    ensures Stands(w, StartMapper(Chain(p)).core, x, p) && x.word == []
  {
    ChainSound(p);
    w := SimStart(Chain(p));
    x := StartMatcher(Chain(p)).matcher;
  }

  /** For every p there is a sound and accepted profile, a run of p keys after which p events are held, and a further
      key that causes exactly p * p / 4 + 1 calls. */
  lemma BoundAttained(p: nat, clock: Clock) returns (cp: Compiled, c: Core)
    ensures Sound(Chain(p)) && CompileProfile(Chain(p)) == Some(cp)
    ensures var start := StartMapper(Chain(p)).core;
      Ok(cp, start) && !start.paused && Holding(cp, start) && c == ProcessAll(cp, clock, start, Keys(0, p))
    ensures Ok(cp, c) && !c.paused && Holding(cp, c) && |HeldBy(cp, c)| == p
    ensures Process(cp, clock, c, Key(p + 1)).calls == c.calls + p * p / 4 + 1
  {
    var w, x := ChainStarts(p);
    cp := w.cp;
    var start := StartMapper(Chain(p)).core;
    StandsFacts(w, start, x, p);
    NoKeys(0);
    c := ProcessAll(cp, clock, start, Keys(0, p));
    var x1 := Reaches(w, clock, start, x, p, 0, Keys(0, p), c);
    ChainHolds(w, c, x1, p);
    LastKeyCost(w, clock, c, x1, p, Process(cp, clock, c, Key(p + 1)));
    QuarterClosed(p);
  }
}
