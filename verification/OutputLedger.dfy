/** Every output ever queued is accounted for, over whole runs; and what pausing does. */
module OutputLedger {
  import opened Options
  import opened Profiles
  import opened Automata
  import StateMachine
  import opened Outputs
  import opened OutputQueue
  import opened MapperModel
  import opened Profiling
  import opened MapperRuns
  import opened Bounded

  /** The entries ever queued. */
  function QueuedIn(log: seq<LogEntry>): seq<Entry> {
    if log == [] then []
    else
      var last := log[|log| - 1];
      QueuedIn(log[..|log| - 1]) + if last.Queued? then [last.entry] else []
  }

  /** Processing only adds to the queue, and logs what it adds. */
  ghost predicate Grown(a: Out, b: Out) {
    && a.queue <= b.queue && QueuedIn(b.log) == QueuedIn(a.log) + b.queue[|a.queue|..]
    && b.sent == a.sent && b.dropped == a.dropped && a.ticks <= b.ticks
  }

  lemma GrownTransitive(a: Out, b: Out, c: Out)
    requires Grown(a, b) && Grown(b, c)
    ensures Grown(a, c)
  {
    assert c.queue[|a.queue|..] == b.queue[|a.queue|..] + c.queue[|b.queue|..];
  }

  lemma LogNote(out: Out, note: LogEntry)
    requires !note.Queued?
    ensures Grown(out, out.(log := out.log + [note]))
  {
    assert (out.log + [note])[..|out.log|] == out.log;
  }

  lemma QueueOutputGrown(clock: Clock, out: Out, event: OutputEvent, delay: nat)
    ensures Grown(out, QueueOutput(clock, out, event, delay))
  {
    var r := QueueOutput(clock, out, event, delay);
    assert r.log[..|out.log|] == out.log;
  }

  lemma {:induction false} RunBindsGrown(clock: Clock, out: Out, binds: seq<Bind>)
    ensures Grown(out, RunBinds(clock, out, binds))
    decreases |binds|
  {
    if binds != [] {
      var before := binds[..|binds| - 1];
      RunBindsGrown(clock, out, before);
      var out' := RunBinds(clock, out, before);
      var output := BindOutput(binds[|binds| - 1]);
      if output.Some? {
        QueueOutputGrown(clock, out', output.value, TotalWait(before));
        GrownTransitive(out, out', RunBinds(clock, out, binds));
      }
    }
  }

  lemma DeliverGrown(clock: Clock, out: Out, event: InputEvent, remapping: Option<seq<Bind>>)
    ensures Grown(out, DeliverOut(clock, out, event, remapping))
  {
    var out' := out.(log := out.log + [Delivered(event)]);
    LogNote(out, Delivered(event));
    match remapping
    case Some(binds) =>
      RunBindsGrown(clock, out', binds);
      GrownTransitive(out, out', RunBinds(clock, out', binds));
    case None =>
      if event.KeyEvent? {
        QueueOutputGrown(clock, out', KeyOutput(event.keyCode, event.eventType), 0);
        GrownTransitive(out, out', DeliverOut(clock, out, event, remapping));
      }
  }

  lemma EmitGrown(clock: Clock, out: Out, bind: Bind)
    ensures Grown(out, EmitOut(clock, out, bind))
  {
    LogNote(out, Emitted(bind));
    RunBindsGrown(clock, out.(log := out.log + [Emitted(bind)]), [bind]);
    GrownTransitive(out, out.(log := out.log + [Emitted(bind)]), EmitOut(clock, out, bind));
  }

  lemma {:induction false} RunOutputsGrown(cp: Compiled, clock: Clock, c: Core, outputs: seq<StateMachineOutput>,
                                           prev: Option<InputEvent>)
    requires Fit(cp, c) && !c.paused && OutputsBelow(outputs, |cp.states|)
    ensures Grown(c.out, RunOutputs(cp, clock, c, outputs, prev).out)
    decreases |outputs|
  {
    if outputs != [] {
      var last := outputs[|outputs| - 1];
      RunOutputsGrown(cp, clock, c, outputs[..|outputs| - 1], prev);
      var c' := RunOutputs(cp, clock, c, outputs[..|outputs| - 1], prev);
      match last {
        case ProcessInput(_) =>
        case BasicTranslation(event) =>
          var e := if event.Some? then event else prev;
          if e.Some? {
            DeliverGrown(clock, c'.out, e.value, Remapping(cp, c'.layer, e.value));
          }
        case Emit(bind) => EmitGrown(clock, c'.out, bind);
      }
      GrownTransitive(c.out, c'.out, RunOutputs(cp, clock, c, outputs, prev).out);
    }
  }

  lemma EnterGrown(clock: Clock, c: Core, t: Transition)
    ensures Grown(c.out, Enter(clock, c, t).out)
  {
  }

  lemma {:induction false} ApplyGrown(cp: Compiled, clock: Clock, c: Core, t: Transition, prev: Option<InputEvent>,
                                      depth: nat, r: Core)
    requires Fit(cp, c) && !c.paused && Applies(cp, c, t) && ApplyWithin(cp, clock, c, t, prev, depth) == Some(r)
    ensures Grown(c.out, r.out)
    decreases depth, 3, 0
  {
    var c1 := Enter(clock, c, t);
    var c2 := RunOutputs(cp, clock, c1, t.outputs, prev);
    EnterGrown(clock, c, t);
    RunOutputsGrown(cp, clock, c1, t.outputs, prev);
    GrownTransitive(c.out, c1.out, c2.out);
    ProcessAllGrown(cp, clock, c2, RedoEvents(t.outputs, prev), depth, r);
    GrownTransitive(c.out, c2.out, r.out);
  }

  lemma {:induction false} ProcessGrown(cp: Compiled, clock: Clock, c: Core, e: InputEvent, depth: nat, r: Core)
    requires Fit(cp, c) && !c.paused && ProcessWithin(cp, clock, c, e, depth) == Some(r)
    ensures Grown(c.out, r.out)
    decreases depth, 1, 0
  {
    ChosenApplies(cp, c, e);
    ApplyGrown(cp, clock, c.(calls := c.calls + 1), Chosen(cp, c, e), Some(e), depth - 1, r);
  }

  lemma {:induction false} ProcessAllGrown(cp: Compiled, clock: Clock, c: Core, events: seq<InputEvent>, depth: nat,
                                           r: Core)
    requires Fit(cp, c) && !c.paused && ProcessAllWithin(cp, clock, c, events, depth) == Some(r)
    ensures Grown(c.out, r.out)
    decreases depth, 2, |events|
  {
    if events != [] {
      var c' := ProcessWithin(cp, clock, c, events[0], depth).value;
      ProcessGrown(cp, clock, c, events[0], depth, c');
      ProcessAllGrown(cp, clock, c', events[1..], depth, r);
      GrownTransitive(c.out, c'.out, r.out);
    }
  }

  /** What was queued is in the queue, was flushed no earlier than due, or was dropped by a pause. */
  ghost predicate Balanced(out: Out) {
    && multiset(QueuedIn(out.log)) == multiset(out.queue) + multiset(SentEntries(out.sent)) + multiset(out.dropped)
    && forall i :: 0 <= i < |out.sent| && out.sent[i].Flushed? ==> out.sent[i].entry.due <= out.sent[i].at
  }

  lemma GrownBalanced(a: Out, b: Out)
    requires Grown(a, b) && Balanced(a)
    ensures Balanced(b)
  {
    assert b.queue == a.queue + b.queue[|a.queue|..];
  }

  lemma {:induction false} SentAppend(a: seq<Sent>, b: seq<Sent>)
    ensures SentEntries(a + b) == SentEntries(a) + SentEntries(b)
  {
    if b == [] {
      assert a + b == a;
    } else {
      assert (a + b)[..|a + b| - 1] == a + b[..|b| - 1];
      SentAppend(a, b[..|b| - 1]);
    }
  }

  lemma FlushBalanced(clock: Clock, out: Out)
    requires Balanced(out)
    ensures Balanced(Flush(clock, out))
  {
    var r := Flush(clock, out);
    FlushExact(clock, out);
    assert r.sent == out.sent + r.sent[|out.sent|..];
    SentAppend(out.sent, r.sent[|out.sent|..]);
  }

  lemma ForwardBalanced(out: Out, e: InputEvent)
    requires Balanced(out)
    ensures Balanced(ForwardOut(out, e))
  {
    if e.KeyEvent? {
      var sent: seq<Sent> := [Forwarded(KeyOutput(e.keyCode, e.eventType))];
      SentAppend(out.sent, sent);
    }
  }

  lemma TickGrown(cp: Compiled, clock: Clock, c: Core, depth: nat, r: Core)
    requires Fit(cp, c) && TickWithin(cp, clock, c, depth) == Some(r)
    ensures Grown(c.out, r.out)
  {
    if c.timer.Some? && c.timer.value <= clock(c.out.ticks) {
      TimerApplies(cp, c);
      ApplyGrown(cp, clock, ReadClock(c), cp.states[c.layer][c.state].timer.value, None, depth, r);
      GrownTransitive(c.out, ReadClock(c).out, r.out);
    }
  }

  lemma KeyBalanced(cp: Compiled, clock: Clock, c: Core, e: InputEvent, depth: nat, r: Core)
    requires Fit(cp, c) && Balanced(c.out) && ProcessWithin(cp, clock, c, e, depth) == Some(r)
    ensures Balanced(r.out)
  {
    if c.paused {
      ForwardBalanced(c.out, e);
    } else {
      ProcessGrown(cp, clock, c, e, depth, r);
      GrownBalanced(c.out, r.out);
    }
  }

  lemma IterateBalanced(cp: Compiled, clock: Clock, c: Core, key: Option<InputEvent>, depth: nat, r: Core)
    requires Fit(cp, c) && Balanced(c.out) && IterateWithin(cp, clock, c, key, depth) == Some(r)
    ensures Balanced(r.out)
  {
    var c1 := TickWithin(cp, clock, c, depth).value;
    TickGrown(cp, clock, c, depth, c1);
    GrownBalanced(c.out, c1.out);
    if key.Some? {
      var c2 := ProcessWithin(cp, clock, c1, key.value, depth).value;
      KeyBalanced(cp, clock, c1, key.value, depth, c2);
      FlushBalanced(clock, c2.out);
    } else {
      FlushBalanced(clock, c1.out);
    }
  }

  lemma StepBalanced(clock: Clock, s: Sys, op: Op, depth: nat, r: Sys)
    requires SysFits(s) && OpFormed(op) && Balanced(s.core.out) && StepWithin(clock, s, op, depth) == Some(r)
    ensures Balanced(r.core.out)
  {
    if op.Iterate? {
      IterateBalanced(s.cp, clock, s.core, op.key, depth, r.core);
    }
  }

  /** Wherever a run has got to, on whatever accepted profiles, the output ledger balances. */
  lemma {:induction false} RunBalanced(clock: Clock, s: Sys, ops: seq<Op>, depth: nat, r: Sys)
    requires SysFits(s) && Balanced(s.core.out) && OpsFormed(ops) && RunWithin(clock, s, ops, depth) == Some(r)
    ensures Balanced(r.core.out)
    decreases |ops|
  {
    if ops != [] {
      var s1 := RunWithin(clock, s, ops[..|ops| - 1], depth).value;
      RunBalanced(clock, s, ops[..|ops| - 1], depth, s1);
      StepBalanced(clock, s1, ops[|ops| - 1], depth, r);
    }
  }

  // ---------- pausing ----------

  /** What the daemon sees of `op` when it is passed through. */
  function Forward(op: Op): seq<Sent> {
    if op.Iterate? && op.key.Some? && op.key.value.KeyEvent?
    then [Forwarded(KeyOutput(op.key.value.keyCode, op.key.value.eventType))] else []
  }

  /** The key events among what the main loop dequeues, in order. */
  function Forwards(ops: seq<Op>): seq<Sent> {
    if ops == [] then [] else Forwards(ops[..|ops| - 1]) + Forward(ops[|ops| - 1])
  }

  predicate Moves(op: Op) {
    op.ChangeLayer? || op.ChangeProfile?
  }

  predicate StaysPut(s: Sys, r: Sys) {
    r.core.layer == s.core.layer && r.core.state == s.core.state && r.cp == s.cp
  }

  lemma PausedTurn(cp: Compiled, clock: Clock, c: Core, key: Option<InputEvent>, depth: nat, r: Core)
    requires Fit(cp, c) && c.paused && IterateWithin(cp, clock, c, key, depth) == Some(r)
    ensures r.out.log == c.out.log && r.out.sent == c.out.sent + Forward(Iterate(key))
    ensures r.paused && r.layer == c.layer && r.state == c.state
  {
  }

  lemma PausedStep(clock: Clock, s: Sys, op: Op, depth: nat, r: Sys)
    requires SysFits(s) && s.core.paused && OpFormed(op) && !op.Resume? && StepWithin(clock, s, op, depth) == Some(r)
    ensures r.core.paused && r.core.out.sent == s.core.out.sent + Forward(op) && r.core.out.log == s.core.out.log
    ensures !Moves(op) ==> StaysPut(s, r)
  {
    if op.Iterate? {
      PausedTurn(s.cp, clock, s.core, op.key, depth, r.core);
    }
  }

  lemma Regroup(a: seq<Sent>, b: seq<Sent>, c: seq<Sent>)
    ensures (a + b) + c == a + (b + c)
  {
  }

  predicate NoResume(ops: seq<Op>) {
    forall i :: 0 <= i < |ops| ==> !ops[i].Resume?
  }

  /** While paused the daemon gets exactly the dequeued key events, in order, and nothing is translated. */
  lemma {:induction false} PausedForwards(clock: Clock, s: Sys, ops: seq<Op>, depth: nat, r: Sys)
    requires SysFits(s) && s.core.paused && OpsFormed(ops) && NoResume(ops) && RunWithin(clock, s, ops, depth) == Some(r)
    ensures r.core.paused && r.core.out.sent == s.core.out.sent + Forwards(ops) && r.core.out.log == s.core.out.log
    decreases |ops|
  {
    if ops != [] {
      var before, last := ops[..|ops| - 1], ops[|ops| - 1];
      var s1 := RunWithin(clock, s, before, depth).value;
      PausedForwards(clock, s, before, depth, s1);
      PausedStep(clock, s1, last, depth, r);
      Regroup(s.core.out.sent, Forwards(before), Forward(last));
    }
  }

  /** While paused layer and state stay put unless another thread changes them. */
  lemma {:induction false} PausedStays(clock: Clock, s: Sys, ops: seq<Op>, depth: nat, r: Sys)
    requires SysFits(s) && s.core.paused && OpsFormed(ops) && NoResume(ops) && RunWithin(clock, s, ops, depth) == Some(r)
    requires forall i :: 0 <= i < |ops| ==> !Moves(ops[i])
    ensures r.core.paused && StaysPut(s, r)
    decreases |ops|
  {
    if ops != [] {
      var before, last := ops[..|ops| - 1], ops[|ops| - 1];
      var s1 := RunWithin(clock, s, before, depth).value;
      PausedStays(clock, s, before, depth, s1);
      PausedStep(clock, s1, last, depth, r);
    }
  }

  // ---------- swapping profiles ----------

  /** A profile swap is all or nothing. */
  lemma ProfileSwap(s: Sys, p: Profile)
    requires NormalProfile(p)
    ensures var r := SetProfile(s, p);
      if Uncompilable(p) then CompileProfile(p).None? && r == s
      else
        && CompileProfile(p).Some? && r.profile == p
        && |r.cp.states| == |r.cp.basics| == |p.layers|
        && (forall i :: 0 <= i < |p.layers| ==>
             StateMachine.Compile(ParseLayer(p.layers[i])) == Some(r.cp.states[i]))
        && r.core.layer == p.defaultLayer && r.core.state == HOME_STATE_IDX && r.core.timer.None?
        && r.core.out == s.core.out && r.core.paused == s.core.paused
  {
    ProfileRejected(p);
    if CompileProfile(p).Some? {
      var cp := CompileProfile(p).value;
      forall i | 0 <= i < |p.layers|
        ensures StateMachine.Compile(ParseLayer(p.layers[i])) == Some(cp.states[i])
      {
        assert CompileLayer(p.layers[i]) == Some((cp.states[i], cp.basics[i]));
      }
    }
  }
}
