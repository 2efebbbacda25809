/** From the daemon's keys to the daemon's outputs: the ledger of the mapper itself. */
module EndToEnd {
  import opened Options
  import opened Profiles
  import opened Automata
  import opened Trie
  import opened Acceptance
  import opened Structure
  import opened Outputs
  import opened MapperModel
  import opened Replaying
  import opened Profiling
  import opened MapperRuns
  import opened Matching
  import opened Refinement
  import opened Conservation
  import opened Histories
  import opened Order
  import opened Transparency
  import Bounded
  import Channel
  import Chronicle
  import Effects
  import OutputLedger

  /** The events that completed sequences used up. */
  function UsedUp(account: seq<Account>): seq<InputEvent> {
    if account == [] then []
    else
      var last := account[|account| - 1];
      UsedUp(account[..|account| - 1]) + if last.Fired? then last.events else []
  }

  lemma DeliveredAppend(a: seq<LogEntry>, b: seq<LogEntry>)
    ensures DeliveredIn(a + b) == DeliveredIn(a) + DeliveredIn(b)
  {
    if b == [] {
      assert a + b == a;
    } else {
      assert (a + b)[..|a + b| - 1] == a + b[..|b| - 1];
      DeliveredAppend(a, b[..|b| - 1]);
    }
  }

  lemma {:induction false} VisibleDelivers(log: seq<LogEntry>)
    ensures DeliveredIn(Visible(log)) == DeliveredIn(log)
  {
    if log != [] {
      var last := log[|log| - 1];
      VisibleDelivers(log[..|log| - 1]);
      DeliveredNote(Visible(log[..|log| - 1]), last);
      assert Visible(log) == if last.Queued? then Visible(log[..|log| - 1]) else Visible(log[..|log| - 1]) + [last];
    }
  }

  lemma {:induction false} BindsDeliverNone(binds: seq<Bind>)
    ensures DeliveredIn(EmittedAll(binds)) == []
  {
    if binds != [] {
      BindsDeliverNone(binds[..|binds| - 1]);
      DeliveredNote(EmittedAll(binds[..|binds| - 1]), Emitted(binds[|binds| - 1]));
    }
  }

  /** Settled events are delivered, used up or lost, and nothing else. */
  lemma {:induction false} AccountSplits(account: seq<Account>)
    ensures multiset(Flatten(account)) == multiset(DeliveredIn(Render(account))) + multiset(UsedUp(account))
      + multiset(Losses(account))
  {
    if account != [] {
      var before, last := account[..|account| - 1], account[|account| - 1];
      AccountSplits(before);
      DeliveredAppend(Render(before), RenderEntry(last));
      match last {
        case Passed(e) =>
          assert RenderEntry(last)[..0] == [];
          assert DeliveredIn(RenderEntry(last)) == [e];
        case Fired(s, _) => BindsDeliverNone(s.binds);
        case Dropped(_) =>
        case Bypassed(_) =>
      }
    }
  }

  /** The reference matcher's account of a run of `p` from the start. */
  function AccountOf(p: Profile, clock: Clock, ops: seq<Op>): seq<Account>
    requires WellFormed(p) && FormedOps(ops)
  {
    MatchRun(clock, StartMatcher(p), ops).matcher.account
  }

  ghost predicate SoundOps(ops: seq<Op>) {
    forall i :: 0 <= i < |ops| ==> SoundOp(ops[i])
  }

  lemma StartSteady(p: Profile)
    requires Sound(p) && CompileProfile(p).Some?
    ensures Steady(p, StartMatcher(p).matcher) && Rendered(StartMatcher(p).matcher) && NoLoss(StartMatcher(p).matcher)
    ensures Settled(p, StartMatcher(p).matcher) == []
  {
    AcceptableCompiles(p);
    NothingHeld(p, StartMatcher(p).matcher);
  }

  /** The mapper's own log, in any run, is the account rendered: passed events translated, each completed sequence
      replaced by its binds; and the account together with the pending word holds every input exactly once. */
  lemma MapperAccounts(p: Profile, clock: Clock, ops: seq<Op>)
    requires Sound(p) && CompileProfile(p).Some? && SoundOps(ops)
    ensures SysOk(StartMapper(p)) && FormedOps(ops) && forall i :: 0 <= i < |ops| ==> OpOk(ops[i])
    ensures var account := AccountOf(p, clock, ops);
      var m := MatchRun(clock, StartMatcher(p), ops);
      && Visible(Run(clock, StartMapper(p), ops).core.out.log) == Render(account)
      && multiset(Inputs(ops)) == multiset(Flatten(account)) + multiset(HeldWord(m.profile, m.matcher))
  {
    MapperRefinesMatcher(p, clock, ops);
    StartSteady(p);
    RunSettlesBag(clock, StartMatcher(p), ops);
    RunRendered(clock, StartMatcher(p), ops);
  }

  /** What the automaton's state holds back, read off the pending word. */
  lemma HeldByScan(w: World, c: Core, x: Matcher)
    requires Sim(w, c, x) && !x.waited && MatcherOk(w.p, x)
    ensures x.word == [] ==> HeldBy(w.cp, c) == []
    ensures x.word != [] ==> Reading(w.p, x).Some?
    ensures x.word != [] ==>
      HeldBy(w.cp, c) == if Reading(w.p, x).value.behavior == SequenceBehavior.Default then x.word else []
  {
    FallbackByScan(w, c, x);
    if x.word != [] {
      FallbackEvents(Reading(w.p, x).value.behavior, x.word, None);
    } else {
      HomeHoldsNothing(w.cp, c.(state := HOME_STATE_IDX, timer := None));
      var _, _, _ := LayerFacts(w, c, x);
    }
  }

  /** In a lossless layer what the automaton's state holds back is what the matcher holds. */
  lemma HeldAlike(w: World, c: Core, x: Matcher)
    requires Sim(w, c, x) && !x.waited && MatcherOk(w.p, x) && LosslessRules(Rules(w.p, x))
    ensures HeldBy(w.cp, c) == HeldWord(w.p, x)
  {
    HeldByScan(w, c, x);
  }

  lemma RunHeldAlike(p: Profile, clock: Clock, ops: seq<Op>, s: Sys, m: MSys)
    requires Sound(p) && CompileProfile(p).Some? && SoundOps(ops) && FormedOps(ops)
    requires SysOk(StartMapper(p)) && forall i :: 0 <= i < |ops| ==> OpOk(ops[i])
    requires s == Run(clock, StartMapper(p), ops) && m == MatchRun(clock, StartMatcher(p), ops)
    requires m.profile == p && Lossless(p) && !m.matcher.waited
    ensures HeldBy(s.cp, s.core) == HeldWord(p, m.matcher)
  {
    var w := SimStart(p);
    var w' := SimRun(w, clock, StartMapper(p), StartMatcher(p), ops);
    assert LosslessRules(Rules(p, m.matcher));
    HeldAlike(w', s.core, m.matcher);
  }

  lemma LedgerCloses(log: seq<LogEntry>, account: seq<Account>)
    requires Visible(log) == Render(account) && Losses(account) == []
    ensures multiset(Flatten(account)) == multiset(DeliveredIn(log)) + multiset(UsedUp(account))
  {
    VisibleDelivers(log);
    AccountSplits(account);
  }

  lemma MatcherLosesNothing(p: Profile, clock: Clock, ops: seq<Op>, m: MSys)
    requires Sound(p) && CompileProfile(p).Some? && Lossless(p) && OnlyIterates(ops) && FormedOps(ops)
    requires m == MatchRun(clock, StartMatcher(p), ops)
    ensures m.profile == p && Losses(m.matcher.account) == [] && !m.matcher.waited
  {
    StartSteady(p);
    RunLosesNothing(clock, StartMatcher(p), ops);
  }

  /** Event conservation: with only Default and Release sequences and no minimum waits, after any run of keys and timeouts
      the inputs are, as a bag, the events delivered to basic translation, the events completed Default sequences used
      up, and the events the current state holds back. */
  lemma EventConservation(p: Profile, clock: Clock, ops: seq<Op>)
    requires Sound(p) && CompileProfile(p).Some? && Lossless(p) && OnlyIterates(ops)
    ensures SysOk(StartMapper(p)) && FormedOps(ops) && forall i :: 0 <= i < |ops| ==> OpOk(ops[i])
    ensures var s := Run(clock, StartMapper(p), ops);
      multiset(Inputs(ops)) ==
        multiset(DeliveredIn(s.core.out.log)) + multiset(UsedUp(AccountOf(p, clock, ops))) + multiset(HeldBy(s.cp, s.core))
  {
    MapperAccounts(p, clock, ops);
    var s, m := Run(clock, StartMapper(p), ops), MatchRun(clock, StartMatcher(p), ops);
    MatcherLosesNothing(p, clock, ops, m);
    LedgerCloses(s.core.out.log, m.matcher.account);
    RunHeldAlike(p, clock, ops, s, m);
  }

  lemma MatcherInOrder(p: Profile, clock: Clock, ops: seq<Op>, m: MSys)
    requires Sound(p) && CompileProfile(p).Some? && ShortDefault(p) && Unpaused(ops) && FormedOps(ops)
    requires m == MatchRun(clock, StartMatcher(p), ops)
    ensures Flatten(m.matcher.account) + HeldWord(m.profile, m.matcher) == Inputs(ops)
  {
    StartSteady(p);
    RunInOrder(clock, StartMatcher(p), ops);
    assert [] + Inputs(ops) == Inputs(ops);
  }

  /** With short Default sequences and no pauses the account keeps the inputs in their order, so the mapper's log is
      the input with each completed sequence replaced by its binds. */
  lemma MapperInOrder(p: Profile, clock: Clock, ops: seq<Op>)
    requires Sound(p) && CompileProfile(p).Some? && ShortDefault(p) && SoundOps(ops) && Unpaused(ops)
    ensures SysOk(StartMapper(p)) && FormedOps(ops) && forall i :: 0 <= i < |ops| ==> OpOk(ops[i])
    ensures var m := MatchRun(clock, StartMatcher(p), ops);
      && Visible(Run(clock, StartMapper(p), ops).core.out.log) == Render(m.matcher.account)
      && Flatten(m.matcher.account) + HeldWord(m.profile, m.matcher) == Inputs(ops)
  {
    MapperAccounts(p, clock, ops);
    MatcherInOrder(p, clock, ops, MatchRun(clock, StartMatcher(p), ops));
  }

  // ---------- what the daemon gets ----------

  lemma {:induction false} VisibleBoth(a: seq<LogEntry>, b: seq<LogEntry>)
    ensures Visible(a + b) == Visible(a) + Visible(b)
    decreases |b|
  {
    if b == [] {
      assert a + b == a;
    } else {
      assert (a + b)[..|a + b| - 1] == a + b[..|b| - 1];
      VisibleBoth(a, b[..|b| - 1]);
    }
  }

  lemma {:induction false} QueuedInvisible(log: seq<LogEntry>)
    requires forall i :: 0 <= i < |log| ==> log[i].Queued?
    ensures Visible(log) == []
    decreases |log|
  {
    if log != [] {
      QueuedInvisible(log[..|log| - 1]);
    }
  }

  /** The notes of an account of a run, without the moves. */
  function NotesOf(items: seq<Chronicle.Item>): seq<LogEntry> {
    if items == [] then [] else (if items[0].Noted? then [items[0].note] else []) + NotesOf(items[1..])
  }

  lemma BlockVisible(clock: Clock, w: Chronicle.Spot, item: Chronicle.Item)
    requires item.Noted? ==> !item.note.Queued?
    ensures Visible(Chronicle.Block(clock, w, item)) == if item.Noted? then [item.note] else []
  {
    if item.Noted? {
      var entries := Effects.Entries(clock, item.tick, Chronicle.Behind(w, item.note));
      Chronicle.NotesQueued(entries);
      QueuedInvisible(Effects.Notes(entries));
      VisibleBoth([item.note], Effects.Notes(entries));
      LogVisible([], item.note);
      assert [] + [item.note] == [item.note];
    }
  }

  lemma {:induction false} ToldVisible(clock: Clock, w: Chronicle.Spot, items: seq<Chronicle.Item>, from: nat, to: nat)
    requires Chronicle.InTime(w, items, from, to)
    ensures Visible(Chronicle.Told(clock, w, items)) == NotesOf(items)
    decreases |items|
  {
    if items != [] {
      var item, w' := items[0], Chronicle.Next(w, items[0]);
      var from' := if item.Noted? then item.tick + |Chronicle.Behind(w, item.note)| else from;
      BlockVisible(clock, w, item);
      ToldVisible(clock, w', items[1..], from', to);
      VisibleBoth(Chronicle.Block(clock, w, item), Chronicle.Told(clock, w', items[1..]));
    }
  }

  lemma RecountsVisible(clock: Clock, w: Chronicle.Spot, items: seq<Chronicle.Item>, w': Chronicle.Spot, out: Out)
    requires Chronicle.Recounts(clock, w, EMPTY_OUT, items, w', out)
    ensures NotesOf(items) == Visible(out.log)
  {
    ToldVisible(clock, w, items, 0, out.ticks);
    assert [] + Chronicle.Told(clock, w, items) == Chronicle.Told(clock, w, items);
  }

  /** Everything the daemon gets in a run of a sound profile is determined by the lists the user wrote: the notes of the run are
      the account rendered, behind each note stand the entries its layer as written asks for, and these entries are queued, sent
      no earlier than due, or dropped by a pause. */
  lemma DaemonGets(p: Profile, clock: Clock, ops: seq<Op>) returns (parts: seq<seq<Chronicle.Item>>)
    requires Sound(p) && CompileProfile(p).Some? && SoundOps(ops)
    ensures SysOk(StartMapper(p)) && FormedOps(ops) && Bounded.OpsFormed(ops) && forall i :: 0 <= i < |ops| ==> OpOk(ops[i])
    ensures NotesOf(Chronicle.All(parts)) == Render(AccountOf(p, clock, ops))
    ensures var start, s := StartMapper(p), Run(clock, StartMapper(p), ops);
      && Chronicle.AllBelong(Chronicle.Here(start), ops, parts)
      && Chronicle.Recounts(clock, Chronicle.Here(start), EMPTY_OUT, Chronicle.All(parts), Chronicle.Here(s), s.core.out)
      && OutputLedger.Balanced(s.core.out)
  {
    MapperAccounts(p, clock, ops);
    var start, s := StartMapper(p), Run(clock, StartMapper(p), ops);
    var depth := Bounded.RunBound(clock, start, ops);
    parts := Chronicle.RunTold(clock, start, ops, depth, s);
    RecountsVisible(clock, Chronicle.Here(start), Chronicle.All(parts), Chronicle.Here(s), s.core.out);
    OutputLedger.RunBalanced(clock, start, ops, depth, s);
  }

  // ---------- with the channel in front ----------

  /** A key arrives, a turn of the main loop ends its wait, another thread calls in, or the channel is closed. */
  datatype Happening = Arrives(event: InputEvent) | Turns(timed: bool) | Calls(op: Op) | Closes

  /** The channel, and what the mapper has been asked to do so far. */
  datatype Pipe = Pipe(channel: Channel.Shared, ops: seq<Op>)

  function Happen(pipe: Pipe, h: Happening): Pipe {
    var channel := pipe.channel;
    match h
    case Arrives(event) => pipe.(channel := Channel.Act(channel, Channel.Send(event)))
    case Closes => pipe.(channel := Channel.Act(channel, Channel.Close))
    case Calls(op) => if op.Iterate? then pipe else pipe.(ops := pipe.ops + [op])
    case Turns(timed) =>
      if !Channel.Enabled(channel, Channel.EndWait(timed)) then pipe
      else Pipe(Channel.Act(channel, Channel.EndWait(timed)), pipe.ops + [Iterate(Channel.Received(channel))])
  }

  function HappenAll(happenings: seq<Happening>): Pipe {
    if happenings == [] then Pipe(Channel.OPENED, [])
    else Happen(HappenAll(happenings[..|happenings| - 1]), happenings[|happenings| - 1])
  }

  ghost predicate InOrder(pipe: Pipe) {
    Channel.Fifo(pipe.channel) && pipe.channel.received == Inputs(pipe.ops)
  }

  lemma TurnInOrder(pipe: Pipe, timed: bool)
    requires InOrder(pipe) && Channel.Enabled(pipe.channel, Channel.EndWait(timed))
    ensures InOrder(Happen(pipe, Turns(timed)))
  {
    Channel.ActFifo(pipe.channel, Channel.EndWait(timed));
    InputsNext(pipe.ops, Iterate(Channel.Received(pipe.channel)));
  }

  lemma CallInOrder(pipe: Pipe, op: Op)
    requires InOrder(pipe)
    ensures InOrder(Happen(pipe, Calls(op)))
  {
    InputsNext(pipe.ops, op);
  }

  lemma HappenInOrder(pipe: Pipe, h: Happening)
    requires InOrder(pipe)
    ensures InOrder(Happen(pipe, h))
  {
    match h
    case Arrives(event) => Channel.ActFifo(pipe.channel, Channel.Send(event));
    case Closes => Channel.ActFifo(pipe.channel, Channel.Close);
    case Calls(op) => CallInOrder(pipe, op);
    case Turns(timed) =>
      if Channel.Enabled(pipe.channel, Channel.EndWait(timed)) {
        TurnInOrder(pipe, timed);
      }
  }

  /** What was sent is what the mapper has been given, in order, followed by what is still queued. */
  lemma {:induction false} PipeInOrder(happenings: seq<Happening>)
    ensures InOrder(HappenAll(happenings))
  {
    if happenings != [] {
      PipeInOrder(happenings[..|happenings| - 1]);
      HappenInOrder(HappenAll(happenings[..|happenings| - 1]), happenings[|happenings| - 1]);
    }
  }

  /** A turn of the main loop with a key queued gives the mapper the oldest key, and one without gives it none. */
  lemma TurnGivesKey(pipe: Pipe, timed: bool)
    ensures var r := Happen(pipe, Turns(timed));
      if pipe.channel.closed || pipe.channel.queue == [] then
        r.channel == pipe.channel &&
        r.ops == pipe.ops + if timed || pipe.channel.closed then [Iterate(None)] else []
      else
        && r.channel.queue == pipe.channel.queue[1..]
        && r.ops == pipe.ops + [Iterate(Some(pipe.channel.queue[0]))]
  {
  }

  function HappenOn(pipe: Pipe, happenings: seq<Happening>): Pipe {
    if happenings == [] then pipe else Happen(HappenOn(pipe, happenings[..|happenings| - 1]), happenings[|happenings| - 1])
  }

  function TurnsIn(happenings: seq<Happening>): nat {
    if happenings == [] then 0
    else TurnsIn(happenings[..|happenings| - 1]) + if happenings[|happenings| - 1].Turns? then 1 else 0
  }

  predicate NoneCloses(happenings: seq<Happening>) {
    forall i :: 0 <= i < |happenings| ==> !happenings[i].Closes?
  }

  lemma HappenGrows(pipe: Pipe, h: Happening)
    requires InOrder(pipe)
    ensures InOrder(Happen(pipe, h)) && pipe.channel.sent <= Happen(pipe, h).channel.sent
  {
    HappenInOrder(pipe, h);
    match h
    case Arrives(event) => Channel.SendQueues(pipe.channel, event);
    case Closes => Channel.CloseCloses(pipe.channel);
    case Calls(_) =>
    case Turns(timed) =>
      if pipe.channel.closed || pipe.channel.queue == [] {
        Channel.WaitTakesNothing(pipe.channel, timed);
      } else {
        Channel.WaitTakesOldest(pipe.channel, timed);
      }
  }

  lemma {:induction false} TurnsTake(pipe: Pipe, happenings: seq<Happening>)
    requires InOrder(pipe) && !pipe.channel.closed && NoneCloses(happenings)
    ensures var r := HappenOn(pipe, happenings);
      && InOrder(r) && !r.channel.closed && pipe.channel.sent <= r.channel.sent
      && (|r.channel.received| >= |pipe.channel.received| + TurnsIn(happenings) ||
          |r.channel.received| >= |pipe.channel.sent|)
    decreases |happenings|
  {
    if happenings != [] {
      var before, last := happenings[..|happenings| - 1], happenings[|happenings| - 1];
      TurnsTake(pipe, before);
      var r := HappenOn(pipe, before);
      HappenGrows(r, last);
      assert !last.Closes?;
      if last.Turns? && r.channel.queue != [] {
        Channel.WaitTakesOldest(r.channel, last.timed);
      }
    }
  }

  /** Unless the channel is closed, whatever else happens: as many turns of the main loop as there are keys queued, and the mapper
      has been given every key that was sent, in order. */
  lemma EveryKeyArrives(pipe: Pipe, happenings: seq<Happening>)
    requires InOrder(pipe) && !pipe.channel.closed && NoneCloses(happenings)
    requires TurnsIn(happenings) >= |pipe.channel.queue|
    ensures pipe.channel.sent <= Inputs(HappenOn(pipe, happenings).ops)
  {
    TurnsTake(pipe, happenings);
    var r := HappenOn(pipe, happenings);
    assert r.channel.sent == r.channel.received + r.channel.queue;
    assert pipe.channel.sent == r.channel.received[..|pipe.channel.sent|];
  }

  /** Every key ever sent is still in the channel, pending, or settled exactly once; and the mapper's log is the account. */
  lemma EveryKeyAccounted(p: Profile, clock: Clock, happenings: seq<Happening>)
    requires Sound(p) && CompileProfile(p).Some? && SoundOps(HappenAll(happenings).ops)
    ensures var pipe := HappenAll(happenings);
      && SysOk(StartMapper(p)) && FormedOps(pipe.ops) && (forall i :: 0 <= i < |pipe.ops| ==> OpOk(pipe.ops[i]))
      && var m := MatchRun(clock, StartMatcher(p), pipe.ops);
      && Visible(Run(clock, StartMapper(p), pipe.ops).core.out.log) == Render(m.matcher.account)
      && multiset(pipe.channel.sent) ==
           multiset(pipe.channel.queue) + multiset(Flatten(m.matcher.account)) + multiset(HeldWord(m.profile, m.matcher))
  {
    PipeInOrder(happenings);
    MapperAccounts(p, clock, HappenAll(happenings).ops);
  }
}
