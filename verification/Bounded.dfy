/** The mapper on any accepted profile: calls may nest only so deep, and are given up beyond that. */
module Bounded {
  import opened Options
  import opened Profiles
  import opened Automata
  import opened Outputs
  import opened OutputQueue
  import opened MapperModel
  import opened Replaying
  import opened Profiling
  import opened MapperRuns

  // ---------- calls ----------

  /** Applying a transition, with calls nested at most `depth` deep. None: that was not deep enough. */
  function ApplyWithin(cp: Compiled, clock: Clock, c: Core, t: Transition, prev: Option<InputEvent>,
                       depth: nat): (r: Option<Core>)
    requires Fit(cp, c) && !c.paused && Applies(cp, c, t)
    ensures r.Some? ==> CoreOk(cp, r.value) && !r.value.paused
    decreases depth, 3, 0
  {
    ProcessAllWithin(cp, clock, RunOutputs(cp, clock, Enter(clock, c, t), t.outputs, prev), RedoEvents(t.outputs, prev), depth)
  }

  lemma ChosenApplies(cp: Compiled, c: Core, e: InputEvent)
    requires Fit(cp, c)
    ensures Applies(cp, c, Chosen(cp, c, e))
  {
    assert LayerFits(cp, c.layer);
  }

  function ProcessWithin(cp: Compiled, clock: Clock, c: Core, e: InputEvent, depth: nat): (r: Option<Core>)
    requires Fit(cp, c)
    ensures r.Some? ==> CoreOk(cp, r.value) && r.value.paused == c.paused
    decreases depth, 1, 0
  {
    var c1 := c.(calls := c.calls + 1);
    if depth == 0 then None
    else if c.paused then Some(c1.(out := ForwardOut(c1.out, e)))
    else
      ChosenApplies(cp, c, e);
      ApplyWithin(cp, clock, c1, Chosen(cp, c, e), Some(e), depth - 1)
  }

  function ProcessAllWithin(cp: Compiled, clock: Clock, c: Core, events: seq<InputEvent>, depth: nat): (r: Option<Core>)
    requires Fit(cp, c) && !c.paused
    ensures r.Some? ==> CoreOk(cp, r.value) && !r.value.paused
    decreases depth, 2, |events|
  {
    if events == [] then Some(c)
    else
      match ProcessWithin(cp, clock, c, events[0], depth)
      case None => None
      case Some(c') => ProcessAllWithin(cp, clock, c', events[1..], depth)
  }

  // ---------- the main loop and the other threads ----------

  lemma TimerApplies(cp: Compiled, c: Core)
    requires Fit(cp, c) && c.timer.Some?
    ensures cp.states[c.layer][c.state].timer.Some? && Applies(cp, c, cp.states[c.layer][c.state].timer.value)
  {
    assert LayerFits(cp, c.layer);
  }

  /** The reading that a turn compares with an armed timer. */
  function ReadClock(c: Core): Core {
    c.(out := c.out.(ticks := c.out.ticks + 1))
  }

  function TickWithin(cp: Compiled, clock: Clock, c: Core, depth: nat): (r: Option<Core>)
    requires Fit(cp, c)
    ensures r.Some? ==> CoreOk(cp, r.value) && r.value.paused == c.paused
  {
    if c.timer.None? then Some(c)
    else
      TimerApplies(cp, c);
      if c.timer.value <= clock(c.out.ticks)
      then ApplyWithin(cp, clock, ReadClock(c), cp.states[c.layer][c.state].timer.value, None, depth)
      else Some(ReadClock(c))
  }

  function IterateWithin(cp: Compiled, clock: Clock, c: Core, key: Option<InputEvent>, depth: nat): (r: Option<Core>)
    requires Fit(cp, c)
    ensures r.Some? ==> CoreOk(cp, r.value) && r.value.paused == c.paused
  {
    match TickWithin(cp, clock, c, depth)
    case None => None
    case Some(c1) =>
      match if key.Some? then ProcessWithin(cp, clock, c1, key.value, depth) else Some(c1)
      case None => None
      case Some(c2) => Some(c2.(out := Flush(clock, c2.out)))
  }

  /** A compiled profile with the mapper somewhere in it: the invariant of every operation. */
  ghost predicate SysFits(s: Sys) {
    && WellFormed(s.profile) && CompileProfile(s.profile) == Some(s.cp) && Fits(s.cp) && CoreOk(s.cp, s.core)
  }

  /** A profile to swap to is in normal form and names only layers it has. */
  predicate OpFormed(op: Op) {
    op.ChangeProfile? ==> WellFormed(op.profile)
  }

  predicate OpsFormed(ops: seq<Op>) {
    forall i :: 0 <= i < |ops| ==> OpFormed(ops[i])
  }

  /** Indices in range, an armed timer answered, nothing pending while paused: whatever has happened, if it has ended. */
  function StepWithin(clock: Clock, s: Sys, op: Op, depth: nat): (r: Option<Sys>)
    requires SysFits(s) && OpFormed(op)
    ensures r.Some? ==> SysFits(r.value)
    ensures !op.Iterate? ==> r.Some?
  {
    match op
    case Iterate(key) =>
      (match IterateWithin(s.cp, clock, s.core, key, depth)
       case None => None
       case Some(c) => Some(s.(core := c)))
    case ChangeLayer(layer) =>
      SetLayerFits(s, layer);
      Some(SetLayer(s, layer))
    case ChangeProfile(p) =>
      SetProfileFits(s, p);
      Some(SetProfile(s, p))
    case Pause => Some(s.(core := PauseCore(s.core)))
    case Resume => Some(s.(core := s.core.(paused := false)))
  }

  lemma SetLayerFits(s: Sys, layer: nat)
    requires SysFits(s)
    ensures SysFits(SetLayer(s, layer))
  {
    if layer < |s.cp.states| {
      assert LayerFits(s.cp, layer);
    }
  }

  lemma SetProfileFits(s: Sys, p: Profile)
    requires SysFits(s) && WellFormed(p)
    ensures SysFits(SetProfile(s, p))
  {
    if CompileProfile(p).Some? {
      var cp := CompileProfile(p).value;
      CompiledFits(p, cp);
      assert LayerFits(cp, p.defaultLayer);
    }
  }

  lemma StartFits(p: Profile)
    requires WellFormed(p) && CompileProfile(p).Some?
    ensures SysFits(StartMapper(p))
  {
    CompiledFits(p, CompileProfile(p).value);
    assert LayerFits(CompileProfile(p).value, p.defaultLayer);
  }

  /** A whole run; None when some call in it nests too deep. */
  function RunWithin(clock: Clock, s: Sys, ops: seq<Op>, depth: nat): (r: Option<Sys>)
    requires SysFits(s) && OpsFormed(ops)
    ensures r.Some? ==> SysFits(r.value)
  {
    if ops == [] then Some(s)
    else
      match RunWithin(clock, s, ops[..|ops| - 1], depth)
      case None => None
      case Some(s') => StepWithin(clock, s', ops[|ops| - 1], depth)
  }

  // ---------- deeper calls change nothing but whether they end ----------

  lemma {:induction false} DeeperApply(cp: Compiled, clock: Clock, c: Core, t: Transition, prev: Option<InputEvent>,
                                       d: nat, d': nat)
    requires Fit(cp, c) && !c.paused && Applies(cp, c, t) && d <= d' && ApplyWithin(cp, clock, c, t, prev, d).Some?
    ensures ApplyWithin(cp, clock, c, t, prev, d') == ApplyWithin(cp, clock, c, t, prev, d)
    decreases d, 3, 0
  {
    DeeperAll(cp, clock, RunOutputs(cp, clock, Enter(clock, c, t), t.outputs, prev), RedoEvents(t.outputs, prev), d, d');
  }

  lemma {:induction false} Deeper(cp: Compiled, clock: Clock, c: Core, e: InputEvent, d: nat, d': nat)
    requires Fit(cp, c) && d <= d' && ProcessWithin(cp, clock, c, e, d).Some?
    ensures ProcessWithin(cp, clock, c, e, d') == ProcessWithin(cp, clock, c, e, d)
    decreases d, 1, 0
  {
    if !c.paused {
      ChosenApplies(cp, c, e);
      DeeperApply(cp, clock, c.(calls := c.calls + 1), Chosen(cp, c, e), Some(e), d - 1, d' - 1);
    }
  }

  lemma {:induction false} DeeperAll(cp: Compiled, clock: Clock, c: Core, events: seq<InputEvent>, d: nat, d': nat)
    requires Fit(cp, c) && !c.paused && d <= d' && ProcessAllWithin(cp, clock, c, events, d).Some?
    ensures ProcessAllWithin(cp, clock, c, events, d') == ProcessAllWithin(cp, clock, c, events, d)
    decreases d, 2, |events|
  {
    if events != [] {
      Deeper(cp, clock, c, events[0], d, d');
      DeeperAll(cp, clock, ProcessWithin(cp, clock, c, events[0], d).value, events[1..], d, d');
    }
  }

  lemma DeeperTick(cp: Compiled, clock: Clock, c: Core, d: nat, d': nat)
    requires Fit(cp, c) && d <= d' && TickWithin(cp, clock, c, d).Some?
    ensures TickWithin(cp, clock, c, d') == TickWithin(cp, clock, c, d)
  {
    if c.timer.Some? && c.timer.value <= clock(c.out.ticks) {
      TimerApplies(cp, c);
      DeeperApply(cp, clock, ReadClock(c), cp.states[c.layer][c.state].timer.value, None, d, d');
    }
  }

  lemma DeeperIterate(cp: Compiled, clock: Clock, c: Core, key: Option<InputEvent>, d: nat, d': nat)
    requires Fit(cp, c) && d <= d' && IterateWithin(cp, clock, c, key, d).Some?
    ensures IterateWithin(cp, clock, c, key, d') == IterateWithin(cp, clock, c, key, d)
  {
    DeeperTick(cp, clock, c, d, d');
    if key.Some? {
      Deeper(cp, clock, TickWithin(cp, clock, c, d).value, key.value, d, d');
    }
  }

  lemma DeeperStep(clock: Clock, s: Sys, op: Op, d: nat, d': nat)
    requires SysFits(s) && OpFormed(op) && d <= d' && StepWithin(clock, s, op, d).Some?
    ensures StepWithin(clock, s, op, d') == StepWithin(clock, s, op, d)
  {
    if op.Iterate? {
      DeeperIterate(s.cp, clock, s.core, op.key, d, d');
    }
  }

  lemma {:induction false} DeeperRun(clock: Clock, s: Sys, ops: seq<Op>, d: nat, d': nat)
    requires SysFits(s) && OpsFormed(ops) && d <= d' && RunWithin(clock, s, ops, d).Some?
    ensures RunWithin(clock, s, ops, d') == RunWithin(clock, s, ops, d)
    decreases |ops|
  {
    if ops != [] {
      DeeperRun(clock, s, ops[..|ops| - 1], d, d');
      DeeperStep(clock, RunWithin(clock, s, ops[..|ops| - 1], d).value, ops[|ops| - 1], d, d');
    }
  }

  // ---------- where replaying is sure to end ----------

  /** Where replays end, calls nest at most p / 2 + 1 deep when p events are held. */
  lemma {:induction false} NestingBound(cp: Compiled, clock: Clock, c: Core, e: InputEvent, depth: nat)
    requires Ok(cp, c) && !c.paused && |HeldBy(cp, c)| < 2 * depth
    ensures ProcessWithin(cp, clock, c, e, depth) == Some(Process(cp, clock, c, e))
    decreases depth, 1, 0
  {
    ChosenApplies(cp, c, e);
    var c', redo := ProcessShape(cp, clock, c, e);
    NestingAllBound(cp, clock, c', redo, depth - 1);
  }

  lemma {:induction false} NestingAllBound(cp: Compiled, clock: Clock, c: Core, events: seq<InputEvent>, depth: nat)
    requires Ok(cp, c) && !c.paused
    requires events != [] ==> Holding(cp, c) && |HeldBy(cp, c)| + |events| <= 2 * depth
    ensures ProcessAllWithin(cp, clock, c, events, depth) ==
      Some(if events == [] then c else ProcessAll(cp, clock, c, events))
    decreases depth, 2, |events|
  {
    if events != [] {
      NestingBound(cp, clock, c, events[0], depth);
      NestingAllBound(cp, clock, Process(cp, clock, c, events[0]), events[1..], depth);
    }
  }

  lemma TickBound(cp: Compiled, clock: Clock, c: Core)
    requires Ok(cp, c)
    ensures TickWithin(cp, clock, c, |HeldBy(cp, c)|) == Some(Tick(cp, clock, c))
  {
    if c.timer.Some? && c.timer.value <= clock(c.out.ticks) {
      var t, c1 := cp.states[c.layer][c.state].timer.value, ReadClock(c);
      TickApplies(cp, clock, c);
      TimerApplies(cp, c);
      assert LayerRuns(cp, c.layer);
      if NoReplay(t.outputs) {
        NoReplayNoRedo(t.outputs, None);
      }
      var c' := RunOutputs(cp, clock, Enter(clock, c1, t), t.outputs, None);
      ApplyShape(cp, clock, c1, t, None, c');
      NestingAllBound(cp, clock, c', RedoEvents(t.outputs, None), |HeldBy(cp, c)|);
    }
  }

  lemma IterateBound(cp: Compiled, clock: Clock, c: Core, key: Option<InputEvent>) returns (depth: nat)
    requires Ok(cp, c)
    ensures IterateWithin(cp, clock, c, key, depth) == Some(IterateCore(cp, clock, c, key))
  {
    var c1 := Tick(cp, clock, c);
    depth := |HeldBy(cp, c)| + |HeldBy(cp, c1)| + 1;
    TickBound(cp, clock, c);
    DeeperTick(cp, clock, c, |HeldBy(cp, c)|, depth);
    if key.Some? {
      KeyBound(cp, clock, c1, key.value, depth);
    }
  }

  lemma KeyBound(cp: Compiled, clock: Clock, c: Core, e: InputEvent, depth: nat)
    requires Ok(cp, c) && |HeldBy(cp, c)| < depth
    ensures ProcessWithin(cp, clock, c, e, depth) == Some(Process(cp, clock, c, e))
  {
    if !c.paused {
      NestingBound(cp, clock, c, e, depth);
    }
  }

  lemma StepBound(clock: Clock, s: Sys, op: Op) returns (depth: nat)
    requires SysOk(s) && OpOk(op)
    ensures SysFits(s) && OpFormed(op) && StepWithin(clock, s, op, depth) == Some(Step(clock, s, op))
  {
    depth := 0;
    if op.Iterate? {
      depth := IterateBound(s.cp, clock, s.core, op.key);
    }
  }

  /** On profiles whose replays end every run ends, at some depth, where the unbounded mapper says. */
  lemma {:induction false} RunBound(clock: Clock, s: Sys, ops: seq<Op>) returns (depth: nat)
    requires SysOk(s) && forall i :: 0 <= i < |ops| ==> OpOk(ops[i])
    ensures SysFits(s) && OpsFormed(ops) && RunWithin(clock, s, ops, depth) == Some(Run(clock, s, ops))
    decreases |ops|
  {
    depth := 0;
    if ops != [] {
      var before, last := ops[..|ops| - 1], ops[|ops| - 1];
      RunNext(clock, s, ops);
      var d1 := RunBound(clock, s, before);
      var d2 := StepBound(clock, Run(clock, s, before), last);
      depth := d1 + d2;
      DeeperRun(clock, s, before, d1, depth);
      DeeperStep(clock, Run(clock, s, before), last, d2, depth);
    }
  }
}
