/** The mapper as an object whose methods change its fields. */
module Mapping {
  import opened Options
  import opened Profiles
  import opened Automata
  import StateMachine
  import opened Outputs
  import OutputQueue
  import opened MapperModel
  import Bounded
  import Effects
  import opened Profiling
  import MapperRuns

  class Mapper {
    /** Reading number i of the steady clock, and the number of readings made so far. */
    const clock: Clock
    var ticks: nat

    var profile: Profile
    var states: seq<seq<State>>
    var basicMaps: seq<map<InputEvent, seq<Bind>>>
    var curLayerIdx: nat
    var curStateIdx: nat
    var currentTimer: Option<nat>
    var queuedEvents: seq<Entry>
    var paused: bool

    ghost var log: seq<LogEntry>
    ghost var sent: seq<Sent>
    ghost var dropped: seq<Entry>
    ghost var calls: nat

    ghost function Ready(): Compiled
      reads this
    {
      Compiled(states, basicMaps)
    }

    ghost function State(): Core
      reads this
    {
      Core(curLayerIdx, curStateIdx, currentTimer, paused, calls, Out(queuedEvents, ticks, log, sent, dropped))
    }

    ghost function System(): MapperRuns.Sys
      reads this
    {
      MapperRuns.Sys(profile, Ready(), State())
    }

    ghost predicate Valid()
      reads this
    {
      Bounded.SysFits(System())
    }

    /** The result of the first profile swap is not looked at: without one that compiles there is nothing to run. */
    constructor (p: Profile, clock: Clock)
      requires WellFormed(p)
      ensures this.clock == clock && profile == p
      ensures CompileProfile(p).Some? ==> Valid() && System() == MapperRuns.StartMapper(p)
      ensures CompileProfile(p).Some? ==> curLayerIdx == p.defaultLayer && curStateIdx == HOME_STATE_IDX && currentTimer.None?
      ensures !paused && queuedEvents == [] && sent == []
      ensures CompileProfile(p).None? ==> Ready() == Compiled([], []) && State() == Core(0, HOME_STATE_IDX, None, false, 0, EMPTY_OUT)
    {
      this.clock := clock;
      ticks, queuedEvents, paused := 0, [], false;
      log, sent, dropped, calls := [], [], [], 0;
      profile, states, basicMaps := p, [], [];
      curLayerIdx, curStateIdx, currentTimer := 0, HOME_STATE_IDX, None;
      new;
      var compiled := CompileAll(p);
      if compiled.Some? {
        states, basicMaps := compiled.value.0, compiled.value.1;
        SetLayerInner(p.defaultLayer);
        Bounded.StartFits(p);
      }
    }

    // ---------- queueing ----------

    method CurrentTimeMs() returns (now: nat)
      modifies this`ticks
      ensures now == clock(old(ticks)) && ticks == old(ticks) + 1
    {
      now := clock(ticks);
      ticks := ticks + 1;
    }

    method QueueOutput(e: OutputEvent, delay: nat)
      modifies this`ticks, this`queuedEvents, this`log
      ensures State() == old(State()).(out := Outputs.QueueOutput(clock, old(State()).out, e, delay))
      ensures queuedEvents == old(queuedEvents) + [Entry(clock(old(ticks)) + delay, e)]
    {
      var now := CurrentTimeMs();
      var entry := Entry(now + delay, e);
      queuedEvents := queuedEvents + [entry];
      log := log + [Queued(entry)];
    }

    method SetLayerInner(newLayer: nat)
      modifies this`curLayerIdx, this`curStateIdx, this`currentTimer
      ensures State() == SwapTo(old(State()), Some(newLayer))
      ensures curLayerIdx == newLayer && curStateIdx == HOME_STATE_IDX && currentTimer.None?
    {
      curLayerIdx := newLayer;
      curStateIdx := HOME_STATE_IDX;
      currentTimer := None;
    }

    /** The outputs of the binds as the list is read, and the layer of its last swap. */
    method QueueBinds(binds: seq<Bind>)
      modifies this`ticks, this`queuedEvents, this`log, this`curLayerIdx, this`curStateIdx, this`currentTimer
      ensures State() == SwapTo(old(State()).(out := RunBinds(clock, old(State()).out, binds)), LastSwap(binds))
      ensures queuedEvents == old(queuedEvents) + Effects.Entries(clock, old(ticks), Effects.Asked(binds, 0))
      ensures curLayerIdx == Effects.LayerAfter(binds, old(curLayerIdx))
    {
      var delayMs := 0;
      for i := 0 to |binds|
        invariant delayMs == TotalWait(binds[..i])
        invariant State() == SwapTo(old(State()).(out := RunBinds(clock, old(State()).out, binds[..i])), LastSwap(binds[..i]))
      {
        assert binds[..i + 1][..i] == binds[..i];
        match binds[i] {
          case PressKey(k) => QueueOutput(KeyOutput(k, KeyEventType.Press), delayMs);
          case ReleaseKey(k) => QueueOutput(KeyOutput(k, KeyEventType.Release), delayMs);
          case SwapLayer(n) => SetLayerInner(n);
          case Wait(ms) => delayMs := delayMs + ms;
          case RunScript(p, s) => QueueOutput(ScriptOutput(p, s), delayMs);
        }
      }
      assert binds[..|binds|] == binds;
      Effects.BindsAsk(clock, old(State()).out, binds);
      Effects.BindsMove(binds, old(curLayerIdx));
    }

    // ---------- transitions ----------

    /** Basic translation of one event. */
    method Translate(e: InputEvent)
      requires curLayerIdx < |basicMaps|
      modifies this`ticks, this`queuedEvents, this`log, this`curLayerIdx, this`curStateIdx, this`currentTimer
      ensures State() == Deliver(Ready(), clock, old(State()), e)
      ensures var basicMap := basicMaps[old(curLayerIdx)];
        if e in basicMap then
          && queuedEvents == old(queuedEvents) + Effects.Entries(clock, old(ticks), Effects.Asked(basicMap[e], 0))
          && curLayerIdx == Effects.LayerAfter(basicMap[e], old(curLayerIdx))
        else
          && queuedEvents == old(queuedEvents) +
               (if e.KeyEvent? then [Entry(clock(old(ticks)), KeyOutput(e.keyCode, e.eventType))] else [])
          && curLayerIdx == old(curLayerIdx)
    {
      log := log + [Delivered(e)];
      if e in basicMaps[curLayerIdx] {
        QueueBinds(basicMaps[curLayerIdx][e]);
      } else if e.KeyEvent? {
        QueueOutput(KeyOutput(e.keyCode, e.eventType), 0);
      }
    }

    method EmitOutput(bind: Bind)
      modifies this`ticks, this`queuedEvents, this`log, this`curLayerIdx, this`curStateIdx, this`currentTimer
      ensures State() == EmitBind(clock, old(State()), bind)
      ensures queuedEvents == old(queuedEvents) + Effects.Entries(clock, old(ticks), Effects.Asked([bind], 0))
      ensures curLayerIdx == Effects.LayerAfter([bind], old(curLayerIdx))
    {
      log := log + [Emitted(bind)];
      QueueBinds([bind]);
    }

    /** The direct outputs of a transition; what is to be processed again is collected. */
    method RunDirectOutputs(outputs: seq<StateMachineOutput>,
                            prevEvent: Option<InputEvent>) returns (eventsToRedo: seq<InputEvent>)
      requires Fit(Ready(), State()) && !paused && OutputsBelow(outputs, |states|)
      modifies this`ticks, this`queuedEvents, this`log, this`curLayerIdx, this`curStateIdx, this`currentTimer
      ensures State() == RunOutputs(Ready(), clock, old(State()), outputs, prevEvent)
      ensures eventsToRedo == RedoEvents(outputs, prevEvent)
    {
      eventsToRedo := [];
      ghost var c := State();
      for i := 0 to |outputs|
        invariant State() == RunOutputs(Ready(), clock, c, outputs[..i], prevEvent)
        invariant eventsToRedo == RedoEvents(outputs[..i], prevEvent)
      {
        assert outputs[..i + 1][..i] == outputs[..i];
        match outputs[i] {
          case ProcessInput(event) =>
            if event.Some? {
              eventsToRedo := eventsToRedo + [event.value];
            } else if prevEvent.Some? {
              eventsToRedo := eventsToRedo + [prevEvent.value];
            }
          case BasicTranslation(event) =>
            var e := event;
            if e.None? && prevEvent.Some? {
              e := prevEvent;
            }
            if e.Some? {
              Translate(e.value);
            }
          case Emit(bind) => EmitOutput(bind);
        }
      }
      assert outputs[..|outputs|] == outputs;
    }

    /** Go to the new state and set its timer, if any. */
    method EnterState(t: Transition)
      modifies this`ticks, this`curStateIdx, this`currentTimer
      ensures State() == Enter(clock, old(State()), t)
      ensures curStateIdx == t.newState
      ensures currentTimer == if t.timerMs.Some? then Some(t.timerMs.value + clock(old(ticks))) else None
    {
      curStateIdx := t.newState;
      if t.timerMs.Some? {
        var now := CurrentTimeMs();
        currentTimer := Some(t.timerMs.value + now);
      } else {
        currentTimer := None;
      }
    }

    /** `depth` is how deep calls nest below this one. */
    method ApplyTransition(t: Transition, prevEvent: Option<InputEvent>, ghost depth: nat)
      requires Fit(Ready(), State()) && !paused && Applies(Ready(), State(), t)
      requires Bounded.ApplyWithin(Ready(), clock, State(), t, prevEvent, depth).Some?
      modifies this`ticks, this`queuedEvents, this`log, this`curLayerIdx, this`curStateIdx, this`currentTimer, this`sent, this`calls
      ensures Some(State()) == Bounded.ApplyWithin(Ready(), clock, old(State()), t, prevEvent, depth)
      decreases depth, 3, 0
    {
      EnterState(t);
      var eventsToRedo := RunDirectOutputs(t.outputs, prevEvent);
      RedoEach(eventsToRedo, depth);
    }

    /** Process the collected events again, one after the other. */
    method RedoEach(eventsToRedo: seq<InputEvent>, ghost depth: nat)
      requires Fit(Ready(), State()) && !paused
      requires Bounded.ProcessAllWithin(Ready(), clock, State(), eventsToRedo, depth).Some?
      modifies this`ticks, this`queuedEvents, this`log, this`curLayerIdx, this`curStateIdx, this`currentTimer, this`sent, this`calls
      ensures Some(State()) == Bounded.ProcessAllWithin(Ready(), clock, old(State()), eventsToRedo, depth)
      decreases depth, 2, 0
    {
      ghost var c, cp := State(), Ready();
      for k := 0 to |eventsToRedo|
        invariant CoreOk(cp, State()) && !paused
        invariant Bounded.ProcessAllWithin(cp, clock, c, eventsToRedo, depth) ==
                  Bounded.ProcessAllWithin(cp, clock, State(), eventsToRedo[k..], depth)
      {
        assert eventsToRedo[k..][1..] == eventsToRedo[k + 1..];
        ProcessInput(eventsToRedo[k], depth);
      }
      assert eventsToRedo[|eventsToRedo|..] == [];
    }

    method ProcessInput(e: InputEvent, ghost depth: nat)
      requires Fit(Ready(), State()) && Bounded.ProcessWithin(Ready(), clock, State(), e, depth).Some?
      modifies this`ticks, this`queuedEvents, this`log, this`curLayerIdx, this`curStateIdx, this`currentTimer, this`sent, this`calls
      ensures Some(State()) == Bounded.ProcessWithin(Ready(), clock, old(State()), e, depth)
      decreases depth, 1, 0
    {
      ghost var c, cp := State(), Ready();
      calls := calls + 1;
      if paused {
        if e.KeyEvent? {
          sent := sent + [Forwarded(KeyOutput(e.keyCode, e.eventType))];
        }
      } else {
        var curState := states[curLayerIdx][curStateIdx];
        var transition := if e in curState.edges then curState.edges[e] else curState.fallback;
        Bounded.ChosenApplies(cp, c, e);
        assert Ready() == cp && State() == c.(calls := c.calls + 1);
        ApplyTransition(transition, Some(e), depth - 1);
      }
    }

    // ---------- the output queue ----------

    /** Bring the entries that are not due to the front; `mid` is the number of them. */
    method PartitionQueue(curTime: nat) returns (mid: nat)
      modifies this`queuedEvents
      ensures (queuedEvents, mid) == OutputQueue.Partition(old(queuedEvents), curTime, 0, |old(queuedEvents)|)
      ensures multiset(queuedEvents) == multiset(old(queuedEvents)) && mid <= |queuedEvents|
      ensures forall i :: 0 <= i < mid ==> queuedEvents[i].due > curTime
      ensures forall i :: mid <= i < |queuedEvents| ==> queuedEvents[i].due <= curTime
    {
      var first, last := 0, |queuedEvents|;
      ghost var q := queuedEvents;
      OutputQueue.PartitionSplits(q, curTime, 0, |q|);
      while first < last
        invariant 0 <= first <= last <= |queuedEvents|
        invariant OutputQueue.Partition(queuedEvents, curTime, first, last) == OutputQueue.Partition(q, curTime, 0, |q|)
        decreases last - first
      {
        if queuedEvents[first].due > curTime {
          first := first + 1;
        } else if queuedEvents[last - 1].due <= curTime {
          last := last - 1;
        } else {
          queuedEvents := queuedEvents[first := queuedEvents[last - 1]][last - 1 := queuedEvents[first]];
          first, last := first + 1, last - 1;
        }
      }
      mid := first;
    }

    method CheckQueuedEvents()
      modifies this`ticks, this`queuedEvents, this`sent
      ensures State() == old(State()).(out := OutputQueue.Flush(clock, old(State()).out))
    {
      if queuedEvents == [] {
        return;
      }
      var curTime := CurrentTimeMs();
      var mid := PartitionQueue(curTime);
      if mid != |queuedEvents| {
        sent := sent + OutputQueue.FlushedAt(queuedEvents[mid..], curTime);
        queuedEvents := queuedEvents[..mid];
      }
    }

    /** An armed timer that has run out fires the timer transition of the current state. */
    method FireTimer(ghost depth: nat)
      requires Fit(Ready(), State()) && Bounded.TickWithin(Ready(), clock, State(), depth).Some?
      modifies this`ticks, this`queuedEvents, this`log, this`curLayerIdx, this`curStateIdx, this`currentTimer, this`sent, this`calls
      ensures Some(State()) == Bounded.TickWithin(Ready(), clock, old(State()), depth)
    {
      ghost var c := State();
      if currentTimer.Some? {
        var curState := states[curLayerIdx][curStateIdx];
        Bounded.TimerApplies(Ready(), c);
        var now := CurrentTimeMs();
        assert State() == Bounded.ReadClock(c);
        if currentTimer.value <= now && curState.timer.Some? {
          ApplyTransition(curState.timer.value, None, depth);
        }
      }
    }

    /** One turn of the main loop; `key` is what the key receiver returned. It ends if some depth of calls is enough. */
    method Iterate(key: Option<InputEvent>, ghost depth: nat)
      requires Valid() && Bounded.IterateWithin(Ready(), clock, State(), key, depth).Some?
      modifies this`ticks, this`queuedEvents, this`log, this`curLayerIdx, this`curStateIdx, this`currentTimer, this`sent, this`calls
      ensures Some(System()) == Bounded.StepWithin(clock, old(System()), MapperRuns.Iterate(key), depth)
      ensures Valid()
    {
      FireTimer(depth);
      if key.Some? {
        ProcessInput(key.value, depth);
      }
      CheckQueuedEvents();
    }

    // ---------- calls from other threads ----------

    method SetLayer(newLayer: nat) returns (ok: bool)
      requires Valid()
      modifies this`curLayerIdx, this`curStateIdx, this`currentTimer
      ensures ok <==> newLayer < |states|
      ensures Some(System()) == Bounded.StepWithin(clock, old(System()), MapperRuns.ChangeLayer(newLayer), 0)
      ensures if ok then curLayerIdx == newLayer && curStateIdx == HOME_STATE_IDX && currentTimer.None? else State() == old(State())
      ensures Valid()
    {
      if newLayer >= |states| {
        return false;
      }
      SetLayerInner(newLayer);
      return true;
    }

    method Pause()
      requires Valid()
      modifies this`paused, this`queuedEvents, this`currentTimer, this`dropped
      ensures Some(System()) == Bounded.StepWithin(clock, old(System()), MapperRuns.Pause, 0)
      ensures paused && queuedEvents == [] && currentTimer.None? && dropped == old(dropped) + old(queuedEvents)
      ensures Valid()
    {
      ghost var s := System();
      paused := true;
      dropped := dropped + queuedEvents;
      queuedEvents := [];
      currentTimer := None;
      assert System() == s.(core := MapperRuns.PauseCore(s.core));
    }

    method Resume()
      requires Valid()
      modifies this`paused
      ensures Some(System()) == Bounded.StepWithin(clock, old(System()), MapperRuns.Resume, 0)
      ensures !paused
      ensures Valid()
    {
      paused := false;
    }

    /** Compile a whole profile first, and only then replace the old one. */
    method SetProfile(p: Profile) returns (ok: bool)
      requires Valid() && WellFormed(p)
      modifies this`profile, this`states, this`basicMaps, this`curLayerIdx, this`curStateIdx, this`currentTimer
      ensures ok <==> !Uncompilable(p)
      ensures Some(System()) == Bounded.StepWithin(clock, old(System()), MapperRuns.ChangeProfile(p), 0)
      ensures if ok then profile == p && curLayerIdx == p.defaultLayer && curStateIdx == HOME_STATE_IDX && currentTimer.None?
              else System() == old(System())
      ensures Valid()
    {
      ghost var s := System();
      ProfileRejected(p);
      var compiled := CompileAll(p);
      if compiled.None? {
        return false;
      }
      profile := p;
      states := compiled.value.0;
      basicMaps := compiled.value.1;
      SetLayerInner(p.defaultLayer);
      assert System() == MapperRuns.SetProfile(s, p);
      return true;
    }
  }

  /** The basic map of one layer; None when a trigger comes twice. */
  method BuildBasicMap(remappings: seq<BasicRemapping>) returns (r: Option<map<InputEvent, seq<Bind>>>)
    ensures r == BasicMap(remappings, |remappings|)
  {
    var basicMap: map<InputEvent, seq<Bind>> := map[];
    for i := 0 to |remappings|
      invariant BasicMap(remappings, i) == Some(basicMap)
    {
      var inputEvent := BasicTriggerToInput(remappings[i].trigger);
      if inputEvent in basicMap {
        BasicMapFails(remappings, i + 1, |remappings|);
        return None;
      }
      basicMap := basicMap[inputEvent := remappings[i].binds];
    }
    return Some(basicMap);
  }

  lemma {:induction false} BasicMapFails(remappings: seq<BasicRemapping>, n: nat, n': nat)
    requires n <= n' <= |remappings| && BasicMap(remappings, n).None?
    ensures BasicMap(remappings, n').None?
  {
    if n < n' {
      BasicMapFails(remappings, n, n' - 1);
    }
  }

  /** Automata and basic maps of all layers; None as soon as one layer fails. */
  method CompileAll(p: Profile) returns (r: Option<(seq<seq<State>>, seq<map<InputEvent, seq<Bind>>>)>)
    requires NormalProfile(p)
    ensures r.Some? <==> CompileProfile(p).Some?
    ensures r.Some? ==> CompileProfile(p) == Some(Compiled(r.value.0, r.value.1))
  {
    var newStates: seq<seq<State>>, newBasicMaps: seq<map<InputEvent, seq<Bind>>> := [], [];
    for i := 0 to |p.layers|
      invariant CompileLayers(p.layers, i) == Some(Compiled(newStates, newBasicMaps))
    {
      CompileLayersNext(p.layers, i, Compiled(newStates, newBasicMaps));
      var basicMap := BuildBasicMap(p.layers[i].basicRemappings);
      if basicMap.None? {
        LayerFails(p.layers, |p.layers|, i);
        return None;
      }
      newBasicMaps := newBasicMaps + [basicMap.value];
      var statesOpt := StateMachine.GenerateStates(p.layers[i]);
      if statesOpt.None? {
        LayerFails(p.layers, |p.layers|, i);
        return None;
      }
      newStates := newStates + [statesOpt.value];
    }
    return Some((newStates, newBasicMaps));
  }
}
