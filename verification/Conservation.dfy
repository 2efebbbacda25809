/** Every input event is accounted for exactly once, in every run; and when the order of events survives. */
module Conservation {
  import opened Options
  import opened Profiles
  import opened Trie
  import opened Acceptance
  import opened Outputs
  import opened OutputQueue
  import opened Profiling
  import opened MapperRuns
  import opened Matching

  function EventsOf(entry: Account): seq<InputEvent> {
    match entry
    case Passed(e) => [e]
    case Fired(_, events) => events
    case Dropped(events) => events
    case Bypassed(e) => [e]
  }

  /** All events in the account, in the order they were settled. */
  function Flatten(account: seq<Account>): seq<InputEvent> {
    if account == [] then [] else Flatten(account[..|account| - 1]) + EventsOf(account[|account| - 1])
  }

  /** The events settled so far and those still pending. */
  function Settled(p: Profile, x: Matcher): seq<InputEvent>
    requires MatcherOk(p, x)
  {
    Flatten(x.account) + HeldWord(p, x)
  }

  /** The keys the main loop has dequeued. */
  function Inputs(ops: seq<Op>): seq<InputEvent> {
    if ops == [] then []
    else
      var last := ops[|ops| - 1];
      Inputs(ops[..|ops| - 1]) + if last.Iterate? && last.key.Some? then [last.key.value] else []
  }

  /** The pending word is a beginning of some sequence's word, with more to come. */
  ghost predicate Steady(p: Profile, x: Matcher) {
    && MatcherOk(p, x) && Acceptable(p)
    && (x.word != [] ==> Reading(p, x).Some? && !IsComplete(Reading(p, x).value, x.word))
  }

  lemma FlattenNote(account: seq<Account>, entry: Account)
    ensures Flatten(account + [entry]) == Flatten(account) + EventsOf(entry)
  {
    assert (account + [entry])[..|account|] == account;
  }

  lemma NothingHeld(p: Profile, x: Matcher)
    requires MatcherOk(p, x) && x.word == []
    ensures HeldWord(p, x) == [] && (Acceptable(p) ==> Steady(p, x))
  {
  }

  /** In an acceptable profile all sequences that read a word behave the same. */
  lemma SameReading(p: Profile, x: Matcher, m: nat)
    requires Steady(p, x) && m < |Rules(p, x)| && x.word != [] && x.word <= Word(Rules(p, x)[m])
    ensures Reading(p, x).value.behavior == Rules(p, x)[m].behavior
  {
    var seqs := Rules(p, x);
    var o := Scan(seqs, x.word).value;
    assert Word(seqs[o])[0] == x.word[0] == Word(seqs[m])[0];
    assert ClashFree(seqs, |seqs|);
    if o < m {
      assert !Clashing(seqs[o], seqs[m]);
    } else if m < o {
      assert !Clashing(seqs[m], seqs[o]);
    }
  }

  lemma PassSettles(p: Profile, clock: Clock, x: Matcher, e: InputEvent)
    requires Steady(p, x) && !x.paused
    requires HeldWord(p, x) == []
    ensures var r := Pass(p, clock, x, e);
      Steady(p, r) && !r.paused && HeldWord(p, r) == [] && Flatten(r.account) == Flatten(x.account) + [e]
    ensures Pass(p, clock, x, e).word == x.word || Pass(p, clock, x, e).word == []
  {
    PassOk(p, clock, x, e);
    FlattenNote(x.account, Passed(e));
  }

  lemma FireSettles(p: Profile, clock: Clock, x: Matcher, s: Sequence, events: seq<InputEvent>)
    requires MatcherOk(p, x) && Acceptable(p) && !x.paused && SwapsBelow(s.binds, |p.layers|)
    ensures var r := Fire(clock, x, s, events);
      Steady(p, r) && HeldWord(p, r) == [] && Flatten(r.account) == Flatten(x.account) + events
  {
    EmitEachOk(p, clock, Note(Reset(x), Fired(s, events)), s.binds);
    FlattenNote(x.account, Fired(s, events));
  }

  lemma HeldBySharer(p: Profile, x: Matcher, m: nat, word: seq<InputEvent>)
    requires Steady(p, x) && m < |Rules(p, x)| && x.word < word <= Word(Rules(p, x)[m])
    ensures HeldWord(p, x) == Unreleased(Rules(p, x)[m], x.word)
  {
    if x.word != [] {
      assert x.word <= Word(Rules(p, x)[m]);
      SameReading(p, x, m);
    }
  }

  lemma CompletionSettles(p: Profile, clock: Clock, x: Matcher, m: nat, e: InputEvent)
    requires Steady(p, x) && !x.paused && Scan(Rules(p, x), x.word + [e]) == Some(m)
    requires IsComplete(Rules(p, x)[m], x.word + [e])
    ensures var r := Advance(p, clock, x, m, e);
      Steady(p, r) && Settled(p, r) == Settled(p, x) + [e]
  {
    var s, word := Rules(p, x)[m], x.word + [e];
    HeldBySharer(p, x, m, word);
    NothingHeld(p, Reset(x));
    var x1 := Reset(x);
    if s.behavior == SequenceBehavior.Release {
      PassSettles(p, clock, Reset(x), e);
      x1 := Pass(p, clock, Reset(x), e);
    }
    RuleBelow(p, x, m);
    FireSettles(p, clock, x1, s, Unreleased(s, word));
  }

  lemma ExtensionSettles(p: Profile, clock: Clock, x: Matcher, m: nat, e: InputEvent)
    requires Steady(p, x) && !x.paused && Scan(Rules(p, x), x.word + [e]) == Some(m)
    requires !IsComplete(Rules(p, x)[m], x.word + [e])
    ensures var r := Advance(p, clock, x, m, e);
      Steady(p, r) && Settled(p, r) == Settled(p, x) + [e]
  {
    var s, word := Rules(p, x)[m], x.word + [e];
    HeldBySharer(p, x, m, word);
    var x1 := Arm(clock, x.(word := word, waited := false), TimerAfter(s, |word|));
    assert Reading(p, x1) == Some(s) && HeldWord(p, x1) == Unreleased(s, word) && Steady(p, x1);
    if s.behavior == SequenceBehavior.Release {
      PassSettles(p, clock, x1, e);
    }
  }

  /** Advancing settles a released event at once, a completed word in one piece, and keeps the rest pending. */
  lemma AdvanceSettles(p: Profile, clock: Clock, x: Matcher, m: nat, e: InputEvent)
    requires Steady(p, x) && !x.paused && Scan(Rules(p, x), x.word + [e]) == Some(m)
    ensures var r := Advance(p, clock, x, m, e);
      Steady(p, r) && Settled(p, r) == Settled(p, x) + [e]
  {
    if IsComplete(Rules(p, x)[m], x.word + [e]) {
      CompletionSettles(p, clock, x, m, e);
    } else {
      ExtensionSettles(p, clock, x, m, e);
    }
  }

  function Current(e: Option<InputEvent>): seq<InputEvent> {
    if e.Some? then [e.value] else []
  }

  /** The pending word has to be given back. */
  predicate GivesBack(p: Profile, x: Matcher)
    requires MatcherOk(p, x)
  {
    !x.waited && Reading(p, x).Some? && Reading(p, x).value.behavior == SequenceBehavior.Default
  }

  lemma WaitedDropSettles(p: Profile, clock: Clock, x: Matcher, e: Option<InputEvent>)
    requires Steady(p, x) && !x.paused && x.waited
    ensures var r := Abandon(p, clock, x, e);
      Steady(p, r) && Settled(p, r) == Settled(p, x) + Current(e)
  {
    var lost := HeldWord(p, x) + Current(e);
    var r := Note(Reset(x), Dropped(lost));
    FlattenNote(x.account, Dropped(lost));
    NothingHeld(p, r);
    assert Flatten(x.account) + lost == Flatten(x.account) + HeldWord(p, x) + Current(e);
  }

  lemma PlainDropSettles(p: Profile, clock: Clock, x: Matcher, e: Option<InputEvent>)
    requires Steady(p, x) && !x.paused && !x.waited && !GivesBack(p, x)
    ensures var r := Abandon(p, clock, x, e);
      Steady(p, r) && Settled(p, r) == Settled(p, x) + Current(e)
  {
    var x1 := Note(Reset(x), Dropped(HeldWord(p, x)));
    FlattenNote(x.account, Dropped(HeldWord(p, x)));
    NothingHeld(p, x1);
    if e.Some? {
      PassSettles(p, clock, x1, e.value);
    }
  }

  /** What is not given back is dropped, in order. */
  lemma DropSettles(p: Profile, clock: Clock, x: Matcher, e: Option<InputEvent>)
    requires Steady(p, x) && !x.paused && !GivesBack(p, x)
    ensures var r := Abandon(p, clock, x, e);
      Steady(p, r) && Settled(p, r) == Settled(p, x) + Current(e)
  {
    if x.waited {
      WaitedDropSettles(p, clock, x, e);
    } else {
      PlainDropSettles(p, clock, x, e);
    }
  }

  lemma GiveBackSettles(p: Profile, clock: Clock, x: Matcher, e: Option<InputEvent>)
    requires Steady(p, x) && !x.paused && GivesBack(p, x)
    ensures var r := GiveBack(p, clock, x, e);
      Steady(p, r) && Settled(p, r) == Flatten(x.account) + [x.word[0]] + Current(e)
    ensures HeldWord(p, x) == x.word
  {
    NothingHeld(p, Reset(x));
    PassSettles(p, clock, Reset(x), x.word[0]);
    var x1 := Pass(p, clock, Reset(x), x.word[0]);
    if e.Some? {
      PassSettles(p, clock, x1, e.value);
    }
    NothingHeld(p, GiveBack(p, clock, x, e));
  }

  // ---------- as a bag, always ----------

  ghost predicate SettlesBag(p: Profile, x: Matcher, events: seq<InputEvent>, r: Matcher) {
    && Steady(p, x) && Steady(p, r)
    && multiset(Settled(p, r)) == multiset(Settled(p, x)) + multiset(events)
  }

  lemma BagTransitive(p: Profile, x: Matcher, a: seq<InputEvent>, y: Matcher, b: seq<InputEvent>, z: Matcher,
                      all: seq<InputEvent>)
    requires SettlesBag(p, x, a, y) && SettlesBag(p, y, b, z) && all == a + b
    ensures SettlesBag(p, x, all, z)
  {
  }

  lemma InOrderIsBag(p: Profile, x: Matcher, events: seq<InputEvent>, r: Matcher)
    requires Steady(p, x) && Steady(p, r) && Settled(p, r) == Settled(p, x) + events
    ensures SettlesBag(p, x, events, r)
  {
  }

  lemma GiveBackBag(p: Profile, x: Matcher, e: Option<InputEvent>, x2: Matcher, r: Matcher)
    requires Steady(p, x) && GivesBack(p, x) && HeldWord(p, x) == x.word && Steady(p, x2)
    requires Settled(p, x2) == Flatten(x.account) + [x.word[0]] + Current(e)
    requires SettlesBag(p, x2, x.word[1..], r)
    ensures SettlesBag(p, x, Current(e), r)
  {
    assert x.word == [x.word[0]] + x.word[1..];
  }

  lemma {:induction false} AbandonSettlesBag(p: Profile, clock: Clock, x: Matcher, e: Option<InputEvent>)
    requires Steady(p, x) && !x.paused
    ensures SettlesBag(p, x, Current(e), Abandon(p, clock, x, e))
    decreases |x.word|, 1, 0
  {
    var r := Abandon(p, clock, x, e);
    if GivesBack(p, x) {
      var x2 := GiveBack(p, clock, x, e);
      GiveBackSettles(p, clock, x, e);
      AllSettleBag(p, clock, x2, x.word[1..]);
      GiveBackBag(p, x, e, x2, r);
    } else {
      DropSettles(p, clock, x, e);
      InOrderIsBag(p, x, Current(e), r);
    }
  }

  /** Notes and outputs do not change what is held. */
  lemma SameHeld(p: Profile, x: Matcher, r: Matcher)
    requires Steady(p, x) && MatcherOk(p, r) && r.layer == x.layer && r.word == x.word
    ensures Steady(p, r) && HeldWord(p, r) == HeldWord(p, x)
  {
  }

  lemma SettledBehind(p: Profile, x: Matcher, entry: Account, r: Matcher)
    requires Steady(p, x) && Steady(p, r) && HeldWord(p, r) == HeldWord(p, x) && r.account == x.account + [entry]
    ensures SettlesBag(p, x, EventsOf(entry), r)
  {
    FlattenNote(x.account, entry);
  }

  /** One event more is settled or pending afterwards, whatever it finishes, abandons or starts. */
  lemma {:induction false} EventSettlesBag(p: Profile, clock: Clock, x: Matcher, e: InputEvent)
    requires Steady(p, x)
    ensures SettlesBag(p, x, [e], MatchEvent(p, clock, x, e))
    decreases |x.word|, 2, 0
  {
    if x.paused {
      SameHeld(p, x, MatchEvent(p, clock, x, e));
      SettledBehind(p, x, Bypassed(e), MatchEvent(p, clock, x, e));
    } else {
      var found := if Blocked(p, x) then None else Scan(Rules(p, x), x.word + [e]);
      if found.Some? {
        AdvanceSettles(p, clock, x, found.value, e);
        InOrderIsBag(p, x, [e], Advance(p, clock, x, found.value, e));
      } else {
        AbandonSettlesBag(p, clock, x, Some(e));
      }
    }
  }

  lemma FirstAndRest(p: Profile, x: Matcher, events: seq<InputEvent>, x1: Matcher, r: Matcher)
    requires events != [] && SettlesBag(p, x, [events[0]], x1) && SettlesBag(p, x1, events[1..], r)
    ensures SettlesBag(p, x, events, r)
  {
    assert events == [events[0]] + events[1..];
    BagTransitive(p, x, [events[0]], x1, events[1..], r, events);
  }

  lemma {:induction false} AllSettleBag(p: Profile, clock: Clock, x: Matcher, events: seq<InputEvent>)
    requires Steady(p, x) && !x.paused
    ensures SettlesBag(p, x, events, MatchAll(p, clock, x, events))
    decreases |x.word| + |events|, 0, |events|
  {
    if events == [] {
      UnchangedSettles(p, x, x);
    } else {
      var x1 := MatchEvent(p, clock, x, events[0]);
      EventSettlesBag(p, clock, x, events[0]);
      AllSettleBag(p, clock, x1, events[1..]);
      FirstAndRest(p, x, events, x1, MatchAll(p, clock, x1, events[1..]));
    }
  }

  lemma ExpireSettlesBag(p: Profile, clock: Clock, x: Matcher)
    requires Steady(p, x) && !x.paused
    ensures SettlesBag(p, x, [], Expire(p, clock, x))
  {
    var r := Expire(p, clock, x);
    if Reading(p, x).Some? && TimerAfter(Reading(p, x).value, |x.word|).Some? {
      var s := Reading(p, x).value;
      if TimerAfter(s, |x.word|).value.MaximumWait? {
        AbandonSettlesBag(p, clock, x, None);
      } else if |x.word| == |s.nodes| {
        RuleBelow(p, x, Scan(Rules(p, x), x.word).value);
        FireSettles(p, clock, x, s, Unreleased(s, x.word));
      } else {
        SameHeld(p, x, r);
      }
    }
  }

  lemma UnchangedSettles(p: Profile, x: Matcher, r: Matcher)
    requires Steady(p, x) && MatcherOk(p, r) && r.layer == x.layer && r.word == x.word && r.account == x.account
    ensures SettlesBag(p, x, [], r)
  {
    SameHeld(p, x, r);
  }

  lemma LateSettlesBag(p: Profile, clock: Clock, x: Matcher, x1: Matcher, r: Matcher)
    requires Steady(p, x) && MatcherOk(p, x1) && !x1.paused && r == Expire(p, clock, x1)
    requires x1.layer == x.layer && x1.word == x.word && x1.account == x.account
    ensures SettlesBag(p, x, [], r)
  {
    var none: seq<InputEvent> := [];
    UnchangedSettles(p, x, x1);
    ExpireSettlesBag(p, clock, x1);
    BagTransitive(p, x, none, x1, none, r, none);
  }

  lemma ExpiredTick(p: Profile, clock: Clock, x: Matcher, x1: Matcher)
    requires MatcherOk(p, x) && x.timer.Some? && x.timer.value <= clock(x.out.ticks)
    requires x1 == x.(out := x.out.(ticks := x.out.ticks + 1))
    ensures MatcherOk(p, x1) && !x1.paused && MatchTick(p, clock, x) == Expire(p, clock, x1)
  {
  }

  lemma TickSettlesBag(p: Profile, clock: Clock, x: Matcher, r: Matcher)
    requires Steady(p, x) && r == MatchTick(p, clock, x)
    ensures SettlesBag(p, x, [], r)
  {
    if x.timer.Some? && x.timer.value <= clock(x.out.ticks) {
      var x1 := x.(out := x.out.(ticks := x.out.ticks + 1));
      ExpiredTick(p, clock, x, x1);
      LateSettlesBag(p, clock, x, x1, r);
    } else {
      UnchangedSettles(p, x, r);
    }
  }

  lemma IterateSettlesBag(p: Profile, clock: Clock, x: Matcher, key: Option<InputEvent>)
    requires Steady(p, x)
    ensures SettlesBag(p, x, Current(key), MatchIterate(p, clock, x, key))
  {
    var x1 := MatchTick(p, clock, x);
    TickSettlesBag(p, clock, x, x1);
    var x2 := if key.Some? then MatchEvent(p, clock, x1, key.value) else x1;
    if key.Some? {
      EventSettlesBag(p, clock, x1, key.value);
      BagTransitive(p, x, [], x1, [key.value], x2, Current(key));
    }
    SameHeld(p, x2, MatchIterate(p, clock, x, key));
  }

  function InputOf(op: Op): seq<InputEvent> {
    if op.Iterate? then Current(op.key) else []
  }

  /** Moving to HOME of some layer, with the pending word written off. */
  lemma LeaveSettles(p: Profile, x: Matcher, p': Profile, layer: nat)
    requires Steady(p, x) && WellFormed(p') && Acceptable(p') && layer < |p'.layers|
    ensures var r := MoveTo(Note(x, Dropped(HeldWord(p, x))), Some(layer));
      Steady(p', r) && Settled(p', r) == Settled(p, x)
  {
    var r := MoveTo(Note(x, Dropped(HeldWord(p, x))), Some(layer));
    FlattenNote(x.account, Dropped(HeldWord(p, x)));
    NothingHeld(p', r);
  }

  lemma StepSettlesBag(clock: Clock, s: MSys, op: Op)
    requires Steady(s.profile, s.matcher) && (op.ChangeProfile? ==> WellFormed(op.profile))
    ensures var r := MatchStep(clock, s, op);
      && Steady(r.profile, r.matcher)
      && multiset(Settled(r.profile, r.matcher)) == multiset(Settled(s.profile, s.matcher)) + multiset(InputOf(op))
  {
    match op
    case Iterate(key) => IterateSettlesBag(s.profile, clock, s.matcher, key);
    case ChangeLayer(layer) =>
      if layer < |s.profile.layers| {
        LeaveSettles(s.profile, s.matcher, s.profile, layer);
      }
    case ChangeProfile(p) =>
      if Acceptable(p) {
        LeaveSettles(s.profile, s.matcher, p, p.defaultLayer);
      }
    case Pause => SameHeld(s.profile, s.matcher, MatchStep(clock, s, op).matcher);
    case Resume => SameHeld(s.profile, s.matcher, MatchStep(clock, s, op).matcher);
  }

  predicate FormedOps(ops: seq<Op>) {
    forall i :: 0 <= i < |ops| ==> ops[i].ChangeProfile? ==> WellFormed(ops[i].profile)
  }

  /** In every run every input is, exactly once, passed on, used up by a completed sequence, dropped or still pending. */
  lemma {:induction false} RunSettlesBag(clock: Clock, s: MSys, ops: seq<Op>)
    requires Steady(s.profile, s.matcher) && FormedOps(ops)
    ensures var r := MatchRun(clock, s, ops);
      && Steady(r.profile, r.matcher)
      && multiset(Settled(r.profile, r.matcher)) == multiset(Settled(s.profile, s.matcher)) + multiset(Inputs(ops))
    decreases |ops|
  {
    if ops != [] {
      var before, last := ops[..|ops| - 1], ops[|ops| - 1];
      RunSettlesBag(clock, s, before);
      StepSettlesBag(clock, MatchRun(clock, s, before), last);
      assert Inputs(ops) == Inputs(before) + InputOf(last);
    }
  }
}
