/** When the order of events survives: exactly when no Default sequence can hold back two events and then fail. */
module Order {
  import opened Options
  import opened Profiles
  import opened Trie
  import opened Acceptance
  import opened Outputs
  import opened OutputQueue
  import opened Profiling
  import opened MapperRuns
  import opened Matching
  import opened Conservation
  import Refinement

  /** A sequence that, if Default, never has more than one event pending. */
  predicate HoldsOne(s: Sequence) {
    s.behavior != SequenceBehavior.Default || |s.nodes| <= 1 || (|s.nodes| == 2 && !EndsTimed(s))
  }

  predicate ShortDefault(p: Profile)
    requires NormalProfile(p)
  {
    forall i, m :: 0 <= i < |p.layers| && 0 <= m < |ParseLayer(p.layers[i])| ==> HoldsOne(ParseLayer(p.layers[i])[m])
  }

  lemma OneHeld(p: Profile, x: Matcher)
    requires Steady(p, x) && ShortDefault(p) && GivesBack(p, x)
    ensures |x.word| == 1
  {
    var seqs := Rules(p, x);
    assert HoldsOne(seqs[Scan(seqs, x.word).value]);
  }

  lemma GiveBackInOrder(p: Profile, clock: Clock, x: Matcher, e: Option<InputEvent>)
    requires Steady(p, x) && !x.paused && GivesBack(p, x) && |x.word| == 1
    ensures Steady(p, Abandon(p, clock, x, e)) && Settled(p, Abandon(p, clock, x, e)) == Settled(p, x) + Current(e)
  {
    var r := GiveBack(p, clock, x, e);
    GiveBackSettles(p, clock, x, e);
    assert x.word[1..] == [] && x.word == [x.word[0]];
    assert Abandon(p, clock, x, e) == MatchAll(p, clock, r, []) == r;
  }

  lemma AbandonInOrder(p: Profile, clock: Clock, x: Matcher, e: Option<InputEvent>)
    requires Steady(p, x) && !x.paused && ShortDefault(p)
    ensures Steady(p, Abandon(p, clock, x, e)) && Settled(p, Abandon(p, clock, x, e)) == Settled(p, x) + Current(e)
  {
    if GivesBack(p, x) {
      OneHeld(p, x);
      GiveBackInOrder(p, clock, x, e);
    } else {
      DropSettles(p, clock, x, e);
    }
  }

  lemma EventInOrder(p: Profile, clock: Clock, x: Matcher, e: InputEvent)
    requires Steady(p, x) && !x.paused && ShortDefault(p)
    ensures Steady(p, MatchEvent(p, clock, x, e)) && Settled(p, MatchEvent(p, clock, x, e)) == Settled(p, x) + [e]
  {
    var found := if Blocked(p, x) then None else Scan(Rules(p, x), x.word + [e]);
    if found.Some? {
      AdvanceSettles(p, clock, x, found.value, e);
    } else {
      AbandonInOrder(p, clock, x, Some(e));
    }
  }

  lemma SameSettled(p: Profile, x: Matcher, r: Matcher)
    requires Steady(p, x) && MatcherOk(p, r) && r.layer == x.layer && r.word == x.word && r.account == x.account
    ensures Steady(p, r) && Settled(p, r) == Settled(p, x)
  {
    SameHeld(p, x, r);
  }

  lemma ExpireInOrder(p: Profile, clock: Clock, x: Matcher)
    requires Steady(p, x) && !x.paused && ShortDefault(p)
    ensures Steady(p, Expire(p, clock, x)) && Settled(p, Expire(p, clock, x)) == Settled(p, x)
  {
    if Reading(p, x).Some? && TimerAfter(Reading(p, x).value, |x.word|).Some? {
      var s := Reading(p, x).value;
      if TimerAfter(s, |x.word|).value.MaximumWait? {
        AbandonInOrder(p, clock, x, None);
      } else if |x.word| == |s.nodes| {
        RuleBelow(p, x, Scan(Rules(p, x), x.word).value);
        FireSettles(p, clock, x, s, Unreleased(s, x.word));
      } else {
        SameSettled(p, x, Expire(p, clock, x));
      }
    }
  }

  lemma IterateInOrder(p: Profile, clock: Clock, x: Matcher, key: Option<InputEvent>)
    requires Steady(p, x) && !x.paused && ShortDefault(p)
    ensures Steady(p, MatchIterate(p, clock, x, key)) && Settled(p, MatchIterate(p, clock, x, key)) == Settled(p, x) + Current(key)
  {
    var x1 := MatchTick(p, clock, x);
    if x.timer.Some? && x.timer.value <= clock(x.out.ticks) {
      var x0 := x.(out := x.out.(ticks := x.out.ticks + 1));
      ExpiredTick(p, clock, x, x0);
      SameSettled(p, x, x0);
      ExpireInOrder(p, clock, x0);
    } else {
      SameSettled(p, x, x1);
    }
    var x2 := if key.Some? then MatchEvent(p, clock, x1, key.value) else x1;
    if key.Some? {
      EventInOrder(p, clock, x1, key.value);
    }
    SameSettled(p, x2, MatchIterate(p, clock, x, key));
  }

  /** Keys, timeouts, layer changes and profile swaps; no pause. */
  predicate Unpaused(ops: seq<Op>) {
    forall i :: 0 <= i < |ops| ==> !ops[i].Pause? && (ops[i].ChangeProfile? ==> WellFormed(ops[i].profile) && ShortDefault(ops[i].profile))
  }

  lemma StepInOrder(clock: Clock, s: MSys, op: Op)
    requires Steady(s.profile, s.matcher) && !s.matcher.paused && ShortDefault(s.profile)
    requires Unpaused([op]) && (op.ChangeProfile? ==> WellFormed(op.profile))
    ensures var r := MatchStep(clock, s, op);
      && Steady(r.profile, r.matcher) && !r.matcher.paused && ShortDefault(r.profile)
      && Settled(r.profile, r.matcher) == Settled(s.profile, s.matcher) + InputOf(op)
  {
    assert [op][0] == op;
    match op
    case Iterate(key) => IterateInOrder(s.profile, clock, s.matcher, key);
    case ChangeLayer(layer) =>
      if layer < |s.profile.layers| {
        LeaveSettles(s.profile, s.matcher, s.profile, layer);
      }
    case ChangeProfile(p) =>
      if Acceptable(p) {
        LeaveSettles(s.profile, s.matcher, p, p.defaultLayer);
      }
    case Resume => SameSettled(s.profile, s.matcher, MatchStep(clock, s, op).matcher);
  }

  /** At `r` what is settled and pending is what was before, then `inputs`, in order. */
  ghost predicate SettledBy(before: seq<InputEvent>, inputs: seq<InputEvent>, r: MSys) {
    && Steady(r.profile, r.matcher) && !r.matcher.paused && ShortDefault(r.profile)
    && Settled(r.profile, r.matcher) == before + inputs
  }

  lemma Regroup(a: seq<InputEvent>, b: seq<InputEvent>, c: seq<InputEvent>)
    ensures (a + b) + c == a + (b + c)
  {
  }

  lemma SettledNext(clock: Clock, before: seq<InputEvent>, inputs: seq<InputEvent>, r: MSys, op: Op)
    requires SettledBy(before, inputs, r) && Unpaused([op]) && (op.ChangeProfile? ==> WellFormed(op.profile))
    ensures SettledBy(before, inputs + InputOf(op), MatchStep(clock, r, op))
  {
    StepInOrder(clock, r, op);
    Regroup(before, inputs, InputOf(op));
  }

  /** In short profiles the settled events, followed by the pending ones, are the inputs in their order. */
  lemma {:induction false} RunInOrder(clock: Clock, s: MSys, ops: seq<Op>)
    requires Steady(s.profile, s.matcher) && !s.matcher.paused && ShortDefault(s.profile) && Unpaused(ops)
    ensures FormedOps(ops) && SettledBy(Settled(s.profile, s.matcher), Inputs(ops), MatchRun(clock, s, ops))
    decreases |ops|
  {
    if ops != [] {
      var before, last := ops[..|ops| - 1], ops[|ops| - 1];
      RunInOrder(clock, s, before);
      SettledNext(clock, Settled(s.profile, s.matcher), Inputs(before), MatchRun(clock, s, before), last);
      assert Inputs(ops) == Inputs(before) + InputOf(last);
    }
  }

  // ---------- and only then ----------

  function CodeOf(e: InputEvent): nat {
    if e.KeyEvent? then e.keyCode else 0
  }

  function CodeBound(word: seq<InputEvent>): (bound: nat)
    ensures forall i :: 0 <= i < |word| ==> CodeOf(word[i]) < bound
  {
    if word == [] then 1
    else
      var rest, last := CodeBound(word[..|word| - 1]), word[|word| - 1];
      if CodeOf(last) < rest then rest else CodeOf(last) + 1
  }

  function RulesBound(seqs: seq<Sequence>): (bound: nat)
    ensures forall m, i :: 0 <= m < |seqs| && 0 <= i < |Word(seqs[m])| ==> CodeOf(Word(seqs[m])[i]) < bound
  {
    if seqs == [] then 1
    else
      var rest, last := RulesBound(seqs[..|seqs| - 1]), CodeBound(Word(seqs[|seqs| - 1]));
      if last < rest then rest else last
  }

  /** A key no sequence mentions. */
  function FreshKey(seqs: seq<Sequence>): InputEvent {
    KeyEvent(RulesBound(seqs), KeyEventType.Press)
  }

  lemma FreshKeyFits(seqs: seq<Sequence>, word: seq<InputEvent>)
    ensures Scan(seqs, word + [FreshKey(seqs)]).None?
  {
    forall m | 0 <= m < |seqs|
      ensures !(word + [FreshKey(seqs)] <= Word(seqs[m]))
    {
      var w := Word(seqs[m]);
      assert |word| < |w| ==> CodeOf(w[|word|]) < RulesBound(seqs);
      assert (word + [FreshKey(seqs)])[|word|] == FreshKey(seqs);
    }
  }

  lemma {:induction false} FlattenPrefix(a: seq<Account>, b: seq<Account>)
    requires a <= b
    ensures Flatten(a) <= Flatten(b)
  {
    if |a| < |b| {
      FlattenPrefix(a, b[..|b| - 1]);
    } else {
      assert a == b;
    }
  }

  /** With nothing pending one event only adds to the account. */
  lemma HomeEventGrows(p: Profile, clock: Clock, x: Matcher, e: InputEvent)
    requires MatcherOk(p, x) && !x.paused && x.word == []
    ensures x.account <= MatchEvent(p, clock, x, e).account
  {
    var found := Scan(Rules(p, x), x.word + [e]);
    if found.Some? {
      var s, word := Rules(p, x)[found.value], x.word + [e];
      if IsComplete(s, word) {
        var released := s.behavior == SequenceBehavior.Release;
        PassOk(p, clock, Reset(x), e);
        var x1 := if released then Pass(p, clock, Reset(x), e) else Reset(x);
        RuleBelow(p, x, found.value);
        EmitEachOk(p, clock, Note(Reset(x1), Fired(s, Unreleased(s, word))), s.binds);
      }
    }
  }

  lemma FlattenTwo(account: seq<Account>, a: InputEvent, b: InputEvent, r: seq<Account>)
    requires r == account + [Passed(a)] + [Passed(b)]
    ensures Flatten(r) == Flatten(account) + [a, b]
  {
    FlattenNote(account, Passed(a));
    FlattenNote(account + [Passed(a)], Passed(b));
  }

  lemma GiveBackAccount(p: Profile, clock: Clock, x: Matcher, e: InputEvent)
    requires MatcherOk(p, x) && !x.paused && x.word != []
    ensures GiveBack(p, clock, x, Some(e)).account == x.account + [Passed(x.word[0])] + [Passed(e)]
  {
    PassOk(p, clock, Reset(x), x.word[0]);
    var x1 := Pass(p, clock, Reset(x), x.word[0]);
    assert Pass(p, clock, x1, e).account == x1.account + [Passed(e)];
  }

  /** Two events are pending and a third fits nothing: the third has overtaken the second. */
  lemma ThirdFirst(p: Profile, clock: Clock, x: Matcher, e: InputEvent) returns (x1: Matcher)
    requires Steady(p, x) && !x.paused && GivesBack(p, x) && |x.word| == 2
    requires Scan(Rules(p, x), x.word + [e]).None?
    ensures Steady(p, x1) && !x1.paused && x1.word == [] && Flatten(x1.account) == Flatten(x.account) + [x.word[0], e]
    ensures x1.account == x.account + [Passed(x.word[0])] + [Passed(e)]
    ensures MatchEvent(p, clock, x, e) == MatchEvent(p, clock, x1, x.word[1])
  {
    x1 := GiveBack(p, clock, x, Some(e));
    GiveBackAccount(p, clock, x, e);
    FlattenTwo(x.account, x.word[0], e, x1.account);
    NothingHeld(p, x1);
    var r := MatchEvent(p, clock, x1, x.word[1]);
    assert x.word[1..] == [x.word[1]];
    assert MatchAll(p, clock, x1, x.word[1..]) == MatchAll(p, clock, r, []) == r;
  }

  lemma {:induction false} ThirdOvertakes(p: Profile, clock: Clock, x: Matcher, e: InputEvent)
    requires Calm(p, x) && |x.word| == 2
    requires Scan(Rules(p, x), x.word + [e]).None? && e != x.word[1]
    ensures Steady(p, MatchEvent(p, clock, x, e)) && Settled(p, MatchEvent(p, clock, x, e)) != x.word + [e]
  {
    var x1 := ThirdFirst(p, clock, x, e);
    var r := MatchEvent(p, clock, x1, x.word[1]);
    EventSettlesBag(p, clock, x1, x.word[1]);
    HomeEventGrows(p, clock, x1, x.word[1]);
    FlattenPrefix(x1.account, r.account);
    assert Settled(p, r)[1] == Flatten(x1.account)[1] == e;
  }

  lemma UntimedCompatible(seqs: seq<Sequence>)
    requires ClashFree(seqs, |seqs|) && forall m :: 0 <= m < |seqs| ==> Untimed(seqs[m])
    ensures CompatibleAll(seqs)
  {
    forall m, n | 0 <= m < n < |seqs|
      ensures Compatible(seqs[m], seqs[n])
    {
      assert !Clashing(seqs[m], seqs[n]);
      if NestedIn(seqs[m], seqs[n]) {
        NestedClashes(seqs[m], seqs[n]);
      }
    }
  }

  /** Without waits a profile is sound as soon as no sequences clash. */
  lemma UntimedSound(p: Profile)
    requires WellFormed(p) && Acceptable(p) && UntimedProfile(p)
    ensures Sound(p) && CompileProfile(p).Some?
  {
    forall i | 0 <= i < |p.layers|
      ensures CompatibleAll(ParseLayer(p.layers[i]))
    {
      UntimedCompatible(ParseLayer(p.layers[i]));
    }
    Refinement.AcceptableCompiles(p);
  }

  predicate UntimedProfile(p: Profile)
    requires NormalProfile(p)
  {
    forall i, m :: 0 <= i < |p.layers| && 0 <= m < |ParseLayer(p.layers[i])| ==> Untimed(ParseLayer(p.layers[i])[m])
  }

  /** Nothing is armed or waited for; what is pending is held by a Default sequence. */
  ghost predicate Calm(p: Profile, x: Matcher) {
    && Steady(p, x) && !x.paused && !x.waited && x.timer.None? && Flatten(x.account) == []
    && (x.word != [] ==> GivesBack(p, x))
  }

  lemma SharersSame(seqs: seq<Sequence>, o: nat, m: nat, word: seq<InputEvent>)
    requires ClashFree(seqs, |seqs|) && o < |seqs| && m < |seqs| && word != []
    requires word <= Word(seqs[o]) && word < Word(seqs[m])
    ensures seqs[o].behavior == seqs[m].behavior && |word| < |seqs[o].nodes|
  {
    assert Word(seqs[o])[0] == word[0] == Word(seqs[m])[0];
    assert word == Word(seqs[o])[..|word|];
    assert Word(seqs[o])[..|Word(seqs[o])|] == Word(seqs[o]);
    if o != m {
      assert !Clashing(if o < m then seqs[o] else seqs[m], if o < m then seqs[m] else seqs[o]);
    }
  }

  /** The next event of a Default sequence, not its last, is taken up. */
  lemma ExtendCalm(p: Profile, clock: Clock, x: Matcher, m: nat, e: InputEvent)
    requires Calm(p, x) && UntimedProfile(p) && m < |Rules(p, x)|
    requires Rules(p, x)[m].behavior == SequenceBehavior.Default && x.word + [e] < Word(Rules(p, x)[m])
    ensures var r := MatchIterate(p, clock, x, Some(e));
      Calm(p, r) && r.word == x.word + [e] && r.layer == x.layer
  {
    var seqs, word := Rules(p, x), x.word + [e];
    assert forall i :: 0 <= i < |seqs| ==> Untimed(seqs[i]);
    var o := Scan(seqs, word).value;
    SharersSame(seqs, o, m, word);
    assert !Blocked(p, x);
    ExtensionSettles(p, clock, x, o, e);
    var x1 := Advance(p, clock, x, o, e);
    assert x1.word == word && Reading(p, x1) == Some(seqs[o]);
    SameHeld(p, x1, MatchIterate(p, clock, x, Some(e)));
  }

  /** Events only come from keys, and only layers change. */
  predicate KeysAndLayers(ops: seq<Op>) {
    forall i :: 0 <= i < |ops| ==> ops[i].Iterate? || ops[i].ChangeLayer?
  }

  ghost predicate InOrderAfter(p: Profile, clock: Clock, ops: seq<Op>)
    requires WellFormed(p) && KeysAndLayers(ops)
  {
    var r := MatchRun(clock, StartMatcher(p), ops);
    Settled(r.profile, r.matcher) == Inputs(ops)
  }

  lemma MatchRunNext(clock: Clock, s: MSys, ops: seq<Op>, op: Op)
    requires MSysOk(s) && FormedOps(ops) && (op.ChangeProfile? ==> WellFormed(op.profile))
    ensures FormedOps(ops + [op]) && MatchRun(clock, s, ops + [op]) == MatchStep(clock, MatchRun(clock, s, ops), op)
  {
    assert (ops + [op])[..|ops|] == ops;
  }

  lemma InputsNext(ops: seq<Op>, op: Op)
    ensures Inputs(ops + [op]) == Inputs(ops) + InputOf(op)
  {
    assert (ops + [op])[..|ops|] == ops;
  }

  /** The run so far has settled nothing; all its inputs are pending at `x`. */
  ghost predicate CalmAfter(p: Profile, clock: Clock, ops: seq<Op>, x: Matcher) {
    && WellFormed(p) && KeysAndLayers(ops)
    && MatchRun(clock, StartMatcher(p), ops) == MSys(p, x)
    && Calm(p, x) && Inputs(ops) == x.word
  }

  lemma LayerRun(p: Profile, clock: Clock, layer: nat, ops: seq<Op>)
    requires WellFormed(p) && ops == [ChangeLayer(layer)]
    ensures FormedOps(ops) && Inputs(ops) == []
    ensures MatchRun(clock, StartMatcher(p), ops) == MatchStep(clock, StartMatcher(p), ChangeLayer(layer))
  {
    assert ops[..0] == [];
    assert Inputs(ops) == Inputs([]) + InputOf(ChangeLayer(layer));
  }

  lemma CalmLayer(p: Profile, clock: Clock, layer: nat) returns (x: Matcher)
    requires WellFormed(p) && Acceptable(p) && layer < |p.layers|
    ensures CalmAfter(p, clock, [ChangeLayer(layer)], x) && x.word == [] && x.layer == layer
  {
    var start := StartMatcher(p);
    LayerRun(p, clock, layer, [ChangeLayer(layer)]);
    NothingHeld(p, start.matcher);
    FlattenNote([], Dropped([]));
    x := MatchStep(clock, start, ChangeLayer(layer)).matcher;
    NothingHeld(p, x);
  }

  lemma CalmKey(p: Profile, clock: Clock, ops: seq<Op>, x: Matcher, m: nat, e: InputEvent,
                word: seq<InputEvent>) returns (x': Matcher)
    requires CalmAfter(p, clock, ops, x) && UntimedProfile(p) && m < |Rules(p, x)| && word == x.word + [e]
    requires Rules(p, x)[m].behavior == SequenceBehavior.Default && word < Word(Rules(p, x)[m])
    ensures CalmAfter(p, clock, ops + [Iterate(Some(e))], x') && x'.word == word && x'.layer == x.layer
  {
    MatchRunNext(clock, StartMatcher(p), ops, Iterate(Some(e)));
    InputsNext(ops, Iterate(Some(e)));
    ExtendCalm(p, clock, x, m, e);
    x' := MatchIterate(p, clock, x, Some(e));
  }

  lemma {:induction false} TurnOvertakes(p: Profile, clock: Clock, x: Matcher, e: InputEvent, r: Matcher)
    requires Calm(p, x) && |x.word| == 2 && r == MatchIterate(p, clock, x, Some(e))
    requires Scan(Rules(p, x), x.word + [e]).None? && e != x.word[1]
    ensures Settled(p, r) != x.word + [e]
  {
    ThirdOvertakes(p, clock, x, e);
    SameSettled(p, MatchEvent(p, clock, x, e), r);
  }

  lemma {:induction false} CalmBroken(p: Profile, clock: Clock, ops: seq<Op>, x: Matcher, e: InputEvent)
    requires CalmAfter(p, clock, ops, x) && |x.word| == 2
    requires Scan(Rules(p, x), x.word + [e]).None? && e != x.word[1]
    ensures KeysAndLayers(ops + [Iterate(Some(e))]) && !InOrderAfter(p, clock, ops + [Iterate(Some(e))])
  {
    MatchRunNext(clock, StartMatcher(p), ops, Iterate(Some(e)));
    InputsNext(ops, Iterate(Some(e)));
    TurnOvertakes(p, clock, x, e, MatchIterate(p, clock, x, Some(e)));
  }

  lemma FirstTwo(s: Sequence, one: seq<InputEvent>, two: seq<InputEvent>)
    requires |s.nodes| >= 3 && one == [s.nodes[0].event] && two == one + [s.nodes[1].event]
    ensures one < Word(s) && two < Word(s)
  {
  }

  /** The first two events of a longer Default sequence are taken up. */
  lemma TwoKeys(p: Profile, clock: Clock, layer: nat, m: nat, s: Sequence, one: seq<InputEvent>, two: seq<InputEvent>)
      returns (ops: seq<Op>, x: Matcher)
    requires WellFormed(p) && Acceptable(p) && UntimedProfile(p) && layer < |p.layers|
    requires m < |ParseLayer(p.layers[layer])| && s == ParseLayer(p.layers[layer])[m] && s.behavior == SequenceBehavior.Default
    requires |s.nodes| >= 3 && one == [s.nodes[0].event] && two == one + [s.nodes[1].event]
    ensures CalmAfter(p, clock, ops, x) && x.layer == layer && x.word == two
  {
    FirstTwo(s, one, two);
    x := CalmLayer(p, clock, layer);
    ops := [ChangeLayer(layer)];
    x := CalmKey(p, clock, ops, x, m, s.nodes[0].event, one);
    ops := ops + [Iterate(Some(s.nodes[0].event))];
    x := CalmKey(p, clock, ops, x, m, s.nodes[1].event, two);
    ops := ops + [Iterate(Some(s.nodes[1].event))];
  }

  /** A long Default sequence in some layer: a run after which two of its events are pending, and a key that goes on
      with nothing. */
  lemma LongDefaultHeld(p: Profile, clock: Clock, layer: nat, m: nat) returns (ops: seq<Op>, x: Matcher, e: InputEvent)
    requires WellFormed(p) && Acceptable(p) && UntimedProfile(p) && layer < |p.layers|
    requires m < |ParseLayer(p.layers[layer])| && !HoldsOne(ParseLayer(p.layers[layer])[m])
    ensures CalmAfter(p, clock, ops, x) && |x.word| == 2 && Scan(Rules(p, x), x.word + [e]).None? && e != x.word[1]
  {
    var seqs := ParseLayer(p.layers[layer]);
    var s := seqs[m];
    assert Untimed(s);
    e := FreshKey(seqs);
    var one := [s.nodes[0].event];
    ops, x := TwoKeys(p, clock, layer, m, s, one, one + [s.nodes[1].event]);
    FreshKeyFits(seqs, x.word);
    assert CodeOf(Word(s)[1]) < RulesBound(seqs);
  }

  /** In that run the order is lost. */
  lemma LongDefaultDisorders(p: Profile, clock: Clock, layer: nat, m: nat) returns (ops: seq<Op>)
    requires WellFormed(p) && Acceptable(p) && UntimedProfile(p) && layer < |p.layers|
    requires m < |ParseLayer(p.layers[layer])| && !HoldsOne(ParseLayer(p.layers[layer])[m])
    ensures KeysAndLayers(ops) && !InOrderAfter(p, clock, ops)
  {
    var before, x, e := LongDefaultHeld(p, clock, layer, m);
    CalmBroken(p, clock, before, x, e);
    ops := before + [Iterate(Some(e))];
  }

  /** For acceptable untimed profiles: the events come out in the order they came in, in every run of keys and layer
      changes, exactly when no Default sequence is longer than two events. */
  lemma OrderExact(p: Profile, clock: Clock)
    requires WellFormed(p) && Acceptable(p) && UntimedProfile(p)
    ensures (forall ops :: KeysAndLayers(ops) ==> InOrderAfter(p, clock, ops)) <==> ShortDefault(p)
  {
    if ShortDefault(p) {
      forall ops | KeysAndLayers(ops)
        ensures InOrderAfter(p, clock, ops)
      {
        var start := StartMatcher(p);
        NothingHeld(p, start.matcher);
        RunInOrder(clock, start, ops);
      }
    } else {
      var i, m :| 0 <= i < |p.layers| && 0 <= m < |ParseLayer(p.layers[i])| && !HoldsOne(ParseLayer(p.layers[i])[m]);
      var ops := LongDefaultDisorders(p, clock, i, m);
    }
  }
}
