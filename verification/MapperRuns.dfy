/** The mapper as a system: everything that can happen to it, and what holds after any number of steps. */
module MapperRuns {
  import opened Options
  import opened Profiles
  import opened Automata
  import TreeShape
  import opened Outputs
  import opened OutputQueue
  import opened MapperModel
  import opened Replaying
  import opened Profiling

  datatype Sys = Sys(profile: Profile, cp: Compiled, core: Core)

  /** One turn of the main loop, with or without a key, or a call from another thread. */
  datatype Op = Iterate(key: Option<InputEvent>) | ChangeLayer(layer: nat) | ChangeProfile(profile: Profile) | Pause | Resume

  function StartMapper(p: Profile): Sys
    requires NormalProfile(p) && CompileProfile(p).Some?
  {
    Sys(p, CompileProfile(p).value, Core(p.defaultLayer, HOME_STATE_IDX, None, false, 0, EMPTY_OUT))
  }

  ghost predicate SysOk(s: Sys) {
    && Admissible(s.profile) && CompileProfile(s.profile) == Some(s.cp)
    && Ok(s.cp, s.core)
  }

  ghost predicate OpOk(op: Op) {
    op.ChangeProfile? ==> Admissible(op.profile)
  }

  /** An armed timer that has run out fires the timer transition of the current state. */
  function Tick(cp: Compiled, clock: Clock, c: Core): (r: Core)
    requires Ok(cp, c)
    ensures CoreOk(cp, r) && r.paused == c.paused
  {
    if c.timer.None? then c
    else
      var c1 := c.(out := c.out.(ticks := c.out.ticks + 1));
      var states := cp.states[c.layer];
      assert LayerRuns(cp, c.layer);
      if c.timer.value <= clock(c.out.ticks) then Apply(cp, clock, c1, states[c.state].timer.value, None) else c1
  }

  lemma TimerFits(cp: Compiled, c: Core)
    requires Ok(cp, c) && cp.states[c.layer][c.state].timer.Some?
    ensures var t := cp.states[c.layer][c.state].timer.value;
      && t.newState < |cp.states[c.layer]| && OutputsBelow(t.outputs, |cp.states|) && t.timerMs.None?
      && (NoReplay(t.outputs) || t.newState == HOME_STATE_IDX)
  {
    var states := cp.states[c.layer];
    assert LayerRuns(cp, c.layer);
  }

  lemma TickApplies(cp: Compiled, clock: Clock, c: Core)
    requires Ok(cp, c) && c.timer.Some?
    ensures CoreOk(cp, c.(out := c.out.(ticks := c.out.ticks + 1))) && cp.states[c.layer][c.state].timer.Some?
    ensures var t := cp.states[c.layer][c.state].timer.value;
      && t.newState < |cp.states[c.layer]| && OutputsBelow(t.outputs, |cp.states|) && t.timerMs.None?
      && (NoReplay(t.outputs) || t.newState == HOME_STATE_IDX)
      && var c1 := c.(out := c.out.(ticks := c.out.ticks + 1));
         Tick(cp, clock, c) == if c.timer.value <= clock(c.out.ticks) then Apply(cp, clock, c1, t, None) else c1
  {
    TimerFits(cp, c);
  }

  function IterateCore(cp: Compiled, clock: Clock, c: Core, key: Option<InputEvent>): (r: Core)
    requires Ok(cp, c)
    ensures CoreOk(cp, r) && r.paused == c.paused
  {
    var c1 := Tick(cp, clock, c);
    var c2 := if key.Some? then Process(cp, clock, c1, key.value) else c1;
    c2.(out := Flush(clock, c2.out))
  }

  function SetLayer(s: Sys, layer: nat): Sys {
    if layer < |s.cp.states| then s.(core := SwapTo(s.core, Some(layer))) else s
  }

  function SetProfile(s: Sys, p: Profile): Sys
    requires NormalProfile(p)
  {
    match CompileProfile(p)
    case None => s
    case Some(cp) => Sys(p, cp, SwapTo(s.core, Some(p.defaultLayer)))
  }

  function PauseCore(c: Core): Core {
    c.(paused := true, timer := None, out := c.out.(queue := [], dropped := c.out.dropped + c.out.queue))
  }

  function Step(clock: Clock, s: Sys, op: Op): (r: Sys)
    requires SysOk(s) && OpOk(op)
    ensures SysOk(r)
  {
    match op
    case Iterate(key) => s.(core := IterateCore(s.cp, clock, s.core, key))
    case ChangeLayer(layer) =>
      SetLayerOk(s, layer);
      SetLayer(s, layer)
    case ChangeProfile(p) =>
      SetProfileOk(s, p);
      SetProfile(s, p)
    case Pause => s.(core := PauseCore(s.core))
    case Resume => s.(core := s.core.(paused := false))
  }

  lemma SetProfileOk(s: Sys, p: Profile)
    requires SysOk(s) && Admissible(p)
    ensures SysOk(SetProfile(s, p))
  {
    if CompileProfile(p).Some? {
      assert LayerRuns(CompileProfile(p).value, p.defaultLayer);
    }
  }

  lemma SetLayerOk(s: Sys, layer: nat)
    requires SysOk(s)
    ensures SysOk(SetLayer(s, layer))
  {
    if layer < |s.cp.states| {
      assert LayerRuns(s.cp, layer);
    }
  }

  function Run(clock: Clock, s: Sys, ops: seq<Op>): (r: Sys)
    requires SysOk(s) && forall i :: 0 <= i < |ops| ==> OpOk(ops[i])
    ensures SysOk(r)
  {
    if ops == [] then s else Step(clock, Run(clock, s, ops[..|ops| - 1]), ops[|ops| - 1])
  }

  lemma RunNext(clock: Clock, s: Sys, ops: seq<Op>)
    requires SysOk(s) && ops != [] && forall i :: 0 <= i < |ops| ==> OpOk(ops[i])
    ensures SysOk(Run(clock, s, ops[..|ops| - 1])) && OpOk(ops[|ops| - 1])
    ensures Run(clock, s, ops) == Step(clock, Run(clock, s, ops[..|ops| - 1]), ops[|ops| - 1])
  {
  }

  lemma StartOk(p: Profile)
    requires Admissible(p) && CompileProfile(p).Some?
    ensures SysOk(StartMapper(p))
  {
    assert LayerRuns(CompileProfile(p).value, p.defaultLayer);
  }
}
