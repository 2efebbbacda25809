/** What can be read off a run's history: the output follows the account, and when nothing is lost. */
module Histories {
  import opened Options
  import opened Profiles
  import opened Trie
  import opened Acceptance
  import opened Outputs
  import opened OutputQueue
  import opened Profiling
  import opened MapperRuns
  import opened Matching
  import opened Conservation

  /** The translations and sequence binds in a log. */
  function Visible(log: seq<LogEntry>): seq<LogEntry> {
    if log == [] then []
    else
      var last := log[|log| - 1];
      Visible(log[..|log| - 1]) + if last.Queued? then [] else [last]
  }

  function EmittedAll(binds: seq<Bind>): seq<LogEntry> {
    if binds == [] then [] else EmittedAll(binds[..|binds| - 1]) + [Emitted(binds[|binds| - 1])]
  }

  function RenderEntry(entry: Account): seq<LogEntry> {
    match entry
    case Passed(e) => [Delivered(e)]
    case Fired(s, _) => EmittedAll(s.binds)
    case Dropped(_) => []
    case Bypassed(_) => []
  }

  /** The account as output: each completed sequence replaced by its binds. */
  function Render(account: seq<Account>): seq<LogEntry> {
    if account == [] then [] else Render(account[..|account| - 1]) + RenderEntry(account[|account| - 1])
  }

  function LossOf(entry: Account): seq<InputEvent> {
    match entry
    case Passed(_) => []
    case Fired(_, _) => []
    case Dropped(events) => events
    case Bypassed(e) => [e]
  }

  /** The events that were neither translated nor used up by a completed sequence. */
  function Losses(account: seq<Account>): seq<InputEvent> {
    if account == [] then [] else Losses(account[..|account| - 1]) + LossOf(account[|account| - 1])
  }

  predicate LosslessRules(seqs: seq<Sequence>) {
    forall m :: 0 <= m < |seqs| ==>
      && seqs[m].behavior != SequenceBehavior.Capture
      && forall d :: 0 <= d < |seqs[m].nodes| ==> !IsMinimum(seqs[m].nodes[d].timer)
  }

  /** Only Default and Release sequences, and no minimum waits. */
  predicate Lossless(p: Profile)
    requires NormalProfile(p)
  {
    forall i :: 0 <= i < |p.layers| ==> LosslessRules(ParseLayer(p.layers[i]))
  }

  predicate Rendered(x: Matcher) {
    Visible(x.out.log) == Render(x.account)
  }

  predicate NoLoss(x: Matcher) {
    !x.paused && !x.waited && Losses(x.account) == []
  }

  /** From `x` to `r` the output kept following the account, and in a lossless profile nothing was lost. */
  ghost predicate Keeps(p: Profile, x: Matcher, r: Matcher) {
    && Steady(p, r) && r.paused == x.paused
    && (Rendered(x) ==> Rendered(r))
    && (Lossless(p) && NoLoss(x) ==> NoLoss(r))
  }

  lemma NoteHistory(account: seq<Account>, entry: Account)
    ensures Render(account + [entry]) == Render(account) + RenderEntry(entry)
    ensures Losses(account + [entry]) == Losses(account) + LossOf(entry)
  {
    assert (account + [entry])[..|account|] == account;
  }

  lemma LogVisible(log: seq<LogEntry>, entry: LogEntry)
    ensures Visible(log + [entry]) == Visible(log) + if entry.Queued? then [] else [entry]
  {
    assert (log + [entry])[..|log|] == log;
  }

  lemma {:induction false} BindsVisible(clock: Clock, out: Out, binds: seq<Bind>)
    ensures Visible(RunBinds(clock, out, binds).log) == Visible(out.log)
    decreases |binds|
  {
    if binds != [] {
      var before := binds[..|binds| - 1];
      BindsVisible(clock, out, before);
      var out' := RunBinds(clock, out, before);
      var output := BindOutput(binds[|binds| - 1]);
      if output.Some? {
        LogVisible(out'.log, Queued(Entry(clock(out'.ticks) + TotalWait(before), output.value)));
      }
    }
  }

  lemma DeliverVisible(clock: Clock, out: Out, event: InputEvent, remapping: Option<seq<Bind>>)
    ensures Visible(DeliverOut(clock, out, event, remapping).log) == Visible(out.log) + [Delivered(event)]
  {
    LogVisible(out.log, Delivered(event));
    var out' := out.(log := out.log + [Delivered(event)]);
    match remapping
    case Some(binds) => BindsVisible(clock, out', binds);
    case None =>
      if event.KeyEvent? {
        LogVisible(out'.log, Queued(Entry(clock(out'.ticks) + 0, KeyOutput(event.keyCode, event.eventType))));
      }
  }

  lemma EmitOneVisible(clock: Clock, x: Matcher, bind: Bind)
    ensures var r := EmitOne(clock, x, bind);
      && Visible(r.out.log) == Visible(x.out.log) + [Emitted(bind)]
      && r.account == x.account && (!x.waited ==> !r.waited) && r.paused == x.paused
  {
    LogVisible(x.out.log, Emitted(bind));
    BindsVisible(clock, x.out.(log := x.out.log + [Emitted(bind)]), [bind]);
  }

  lemma {:induction false} EmitEachVisible(clock: Clock, x: Matcher, binds: seq<Bind>)
    ensures var r := EmitEach(clock, x, binds);
      && Visible(r.out.log) == Visible(x.out.log) + EmittedAll(binds)
      && r.account == x.account && (!x.waited ==> !r.waited) && r.paused == x.paused
    decreases |binds|
  {
    if binds != [] {
      EmitEachVisible(clock, x, binds[..|binds| - 1]);
      EmitOneVisible(clock, EmitEach(clock, x, binds[..|binds| - 1]), binds[|binds| - 1]);
    }
  }

  lemma PassKeeps(p: Profile, clock: Clock, x: Matcher, e: InputEvent)
    requires MatcherOk(p, x) && !x.paused
    ensures var r := Pass(p, clock, x, e);
      && (Rendered(x) ==> Rendered(r)) && (NoLoss(x) ==> NoLoss(r)) && r.paused == x.paused
  {
    DeliverVisible(clock, x.out, e, FindRemapping(p.layers[x.layer].basicRemappings, e));
    NoteHistory(x.account, Passed(e));
  }

  lemma FireKeeps(p: Profile, clock: Clock, x: Matcher, s: Sequence, events: seq<InputEvent>)
    requires MatcherOk(p, x) && !x.paused
    ensures var r := Fire(clock, x, s, events);
      && (Rendered(x) ==> Rendered(r)) && (Losses(x.account) == [] ==> NoLoss(r)) && r.paused == x.paused
  {
    NoteHistory(x.account, Fired(s, events));
    EmitEachVisible(clock, Note(Reset(x), Fired(s, events)), s.binds);
  }

  lemma AdvanceKeeps(p: Profile, clock: Clock, x: Matcher, m: nat, e: InputEvent)
    requires Steady(p, x) && !x.paused && Scan(Rules(p, x), x.word + [e]) == Some(m)
    ensures Keeps(p, x, Advance(p, clock, x, m, e))
  {
    AdvanceSettles(p, clock, x, m, e);
    var s, word := Rules(p, x)[m], x.word + [e];
    var released := s.behavior == SequenceBehavior.Release;
    if IsComplete(s, word) {
      var x1 := Reset(x);
      if released {
        PassOk(p, clock, x1, e);
        PassKeeps(p, clock, x1, e);
        x1 := Pass(p, clock, x1, e);
      }
      FireKeeps(p, clock, x1, s, Unreleased(s, word));
    } else if released {
      PassKeeps(p, clock, Arm(clock, x.(word := word, waited := false), TimerAfter(s, |word|)), e);
    }
  }

  lemma LosslessHeld(p: Profile, x: Matcher)
    requires Steady(p, x) && Lossless(p) && !GivesBack(p, x) && !x.waited
    ensures HeldWord(p, x) == []
  {
    assert LosslessRules(Rules(p, x));
  }

  lemma DropKeeps(p: Profile, clock: Clock, x: Matcher, e: Option<InputEvent>)
    requires Steady(p, x) && !x.paused && !GivesBack(p, x)
    ensures Keeps(p, x, Abandon(p, clock, x, e))
  {
    DropSettles(p, clock, x, e);
    if x.waited {
      NoteHistory(x.account, Dropped(HeldWord(p, x) + Current(e)));
    } else {
      NoteHistory(x.account, Dropped(HeldWord(p, x)));
      if Lossless(p) {
        LosslessHeld(p, x);
      }
      if e.Some? {
        PassKeeps(p, clock, Note(Reset(x), Dropped(HeldWord(p, x))), e.value);
      }
    }
  }

  lemma GiveBackKeeps(p: Profile, clock: Clock, x: Matcher, e: Option<InputEvent>)
    requires Steady(p, x) && !x.paused && GivesBack(p, x)
    ensures Keeps(p, x, GiveBack(p, clock, x, e))
  {
    GiveBackSettles(p, clock, x, e);
    PassOk(p, clock, Reset(x), x.word[0]);
    PassKeeps(p, clock, Reset(x), x.word[0]);
    if e.Some? {
      PassKeeps(p, clock, Pass(p, clock, Reset(x), x.word[0]), e.value);
    }
  }

  lemma {:induction false} AbandonKeeps(p: Profile, clock: Clock, x: Matcher, e: Option<InputEvent>)
    requires Steady(p, x) && !x.paused
    ensures Keeps(p, x, Abandon(p, clock, x, e))
    decreases |x.word|, 1, 0
  {
    if GivesBack(p, x) {
      GiveBackKeeps(p, clock, x, e);
      AllKeep(p, clock, GiveBack(p, clock, x, e), x.word[1..]);
    } else {
      DropKeeps(p, clock, x, e);
    }
  }

  lemma {:induction false} EventKeeps(p: Profile, clock: Clock, x: Matcher, e: InputEvent)
    requires Steady(p, x) && !x.paused
    ensures Keeps(p, x, MatchEvent(p, clock, x, e))
    decreases |x.word|, 2, 0
  {
    var found := if Blocked(p, x) then None else Scan(Rules(p, x), x.word + [e]);
    if found.Some? {
      AdvanceKeeps(p, clock, x, found.value, e);
    } else {
      AbandonKeeps(p, clock, x, Some(e));
    }
  }

  lemma {:induction false} AllKeep(p: Profile, clock: Clock, x: Matcher, events: seq<InputEvent>)
    requires Steady(p, x) && !x.paused
    ensures Keeps(p, x, MatchAll(p, clock, x, events))
    decreases |x.word| + |events|, 0, |events|
  {
    if events != [] {
      EventKeeps(p, clock, x, events[0]);
      AllKeep(p, clock, MatchEvent(p, clock, x, events[0]), events[1..]);
    }
  }

  lemma ExpireKeeps(p: Profile, clock: Clock, x: Matcher)
    requires Steady(p, x) && !x.paused
    ensures Keeps(p, x, Expire(p, clock, x))
  {
    ExpireSettlesBag(p, clock, x);
    if Lossless(p) {
      NoMinimum(p, x);
    }
    if Reading(p, x).Some? && TimerAfter(Reading(p, x).value, |x.word|).Some? {
      var s := Reading(p, x).value;
      if TimerAfter(s, |x.word|).value.MaximumWait? {
        AbandonKeeps(p, clock, x, None);
      } else if |x.word| == |s.nodes| {
        FireKeeps(p, clock, x, s, Unreleased(s, x.word));
      }
    }
  }

  lemma NoMinimum(p: Profile, x: Matcher)
    requires MatcherOk(p, x) && Lossless(p)
    ensures Reading(p, x).Some? ==> !IsMinimum(TimerAfter(Reading(p, x).value, |x.word|))
  {
    assert LosslessRules(Rules(p, x));
  }

  lemma TickKeeps(p: Profile, clock: Clock, x: Matcher, r: Matcher)
    requires Steady(p, x) && r == MatchTick(p, clock, x)
    ensures Keeps(p, x, r)
  {
    TickSettlesBag(p, clock, x, r);
    if x.timer.Some? && x.timer.value <= clock(x.out.ticks) {
      var x1 := x.(out := x.out.(ticks := x.out.ticks + 1));
      ExpiredTick(p, clock, x, x1);
      SameHeld(p, x, x1);
      ExpireKeeps(p, clock, x1);
    }
  }

  lemma BypassKeeps(p: Profile, clock: Clock, x: Matcher, e: InputEvent)
    requires Steady(p, x) && x.paused
    ensures Keeps(p, x, MatchEvent(p, clock, x, e))
  {
    NoteHistory(x.account, Bypassed(e));
    SameHeld(p, x, MatchEvent(p, clock, x, e));
  }

  lemma IterateKeeps(p: Profile, clock: Clock, x: Matcher, key: Option<InputEvent>)
    requires Steady(p, x)
    ensures Keeps(p, x, MatchIterate(p, clock, x, key))
  {
    var x1 := MatchTick(p, clock, x);
    TickKeeps(p, clock, x, x1);
    var x2 := if key.Some? then MatchEvent(p, clock, x1, key.value) else x1;
    if key.Some? {
      if x1.paused {
        BypassKeeps(p, clock, x1, key.value);
      } else {
        EventKeeps(p, clock, x1, key.value);
      }
    }
    FlushExact(clock, x2.out);
    SameHeld(p, x2, MatchIterate(p, clock, x, key));
  }

  lemma StepRendered(clock: Clock, s: MSys, op: Op)
    requires Steady(s.profile, s.matcher) && (op.ChangeProfile? ==> WellFormed(op.profile)) && Rendered(s.matcher)
    ensures Rendered(MatchStep(clock, s, op).matcher)
  {
    NoteHistory(s.matcher.account, Dropped(HeldWord(s.profile, s.matcher)));
    if op.Iterate? {
      IterateKeeps(s.profile, clock, s.matcher, op.key);
    }
  }

  /** In every run the output is the account with each passed event translated and each completed sequence
      replaced by its binds. */
  lemma {:induction false} RunRendered(clock: Clock, s: MSys, ops: seq<Op>)
    requires Steady(s.profile, s.matcher) && FormedOps(ops) && Rendered(s.matcher)
    ensures Rendered(MatchRun(clock, s, ops).matcher)
    decreases |ops|
  {
    if ops != [] {
      var before, last := ops[..|ops| - 1], ops[|ops| - 1];
      RunRendered(clock, s, before);
      RunSettlesBag(clock, s, before);
      StepRendered(clock, MatchRun(clock, s, before), last);
    }
  }

  predicate OnlyIterates(ops: seq<Op>) {
    forall i :: 0 <= i < |ops| ==> ops[i].Iterate?
  }

  /** With only Default and Release sequences and no minimum waits, runs driven by keys and timeouts lose nothing. */
  lemma {:induction false} RunLosesNothing(clock: Clock, s: MSys, ops: seq<Op>)
    requires Steady(s.profile, s.matcher) && Lossless(s.profile) && NoLoss(s.matcher) && OnlyIterates(ops)
    ensures FormedOps(ops)
    ensures var r := MatchRun(clock, s, ops);
      r.profile == s.profile && Steady(r.profile, r.matcher) && NoLoss(r.matcher) && r.matcher.paused == s.matcher.paused
    decreases |ops|
  {
    if ops != [] {
      var before, last := ops[..|ops| - 1], ops[|ops| - 1];
      RunLosesNothing(clock, s, before);
      IterateKeeps(s.profile, clock, MatchRun(clock, s, before).matcher, last.key);
    }
  }
}
