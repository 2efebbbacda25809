/** Exactly when processing an event ends, on any automata without a failing lookup. */
module Termination {
  import opened Options
  import opened Profiles
  import opened Automata
  import opened Outputs
  import opened MapperModel
  import opened Profiling
  import opened Bounded

  // ---------- clock and outputs decide nothing ----------

  /** The same layer and state, with calls not bypassed by a pause. */
  predicate SameControl(c: Core, c': Core) {
    c.layer == c'.layer && c.state == c'.state && !c.paused && !c'.paused
  }

  lemma OutputControl(cp: Compiled, clock: Clock, clock': Clock, c: Core, c': Core, output: StateMachineOutput,
                      prev: Option<InputEvent>)
    requires c.layer < |cp.basics| && SameControl(c, c')
    ensures SameControl(RunOutput(cp, clock, c, output, prev), RunOutput(cp, clock', c', output, prev))
  {
  }

  lemma {:induction false} OutputsControl(cp: Compiled, clock: Clock, clock': Clock, c: Core, c': Core,
                                          outputs: seq<StateMachineOutput>, prev: Option<InputEvent>)
    requires Fit(cp, c) && Fit(cp, c') && SameControl(c, c') && OutputsBelow(outputs, |cp.states|)
    ensures SameControl(RunOutputs(cp, clock, c, outputs, prev), RunOutputs(cp, clock', c', outputs, prev))
    decreases |outputs|
  {
    if outputs != [] {
      var before := outputs[..|outputs| - 1];
      OutputsControl(cp, clock, clock', c, c', before, prev);
      OutputControl(cp, clock, clock', RunOutputs(cp, clock, c, before, prev), RunOutputs(cp, clock', c', before, prev),
                    outputs[|outputs| - 1], prev);
    }
  }

  /** Where a call stands once its direct outputs are out. */
  ghost function Entered(cp: Compiled, clock: Clock, c: Core, e: InputEvent): (r: Core)
    requires Fit(cp, c) && !c.paused
    ensures CoreOk(cp, r) && !r.paused
  {
    var t := Chosen(cp, c, e);
    ChosenApplies(cp, c, e);
    RunOutputs(cp, clock, Enter(clock, c.(calls := c.calls + 1), t), t.outputs, Some(e))
  }

  /** A call is its direct outputs and then its replays, one level deeper. */
  lemma CallReplays(cp: Compiled, clock: Clock, c: Core, e: InputEvent, d: nat)
    requires Fit(cp, c) && !c.paused && d > 0
    ensures ProcessWithin(cp, clock, c, e, d) ==
      ProcessAllWithin(cp, clock, Entered(cp, clock, c, e), RedoEvents(Chosen(cp, c, e).outputs, Some(e)), d - 1)
  {
  }

  lemma EnteredControl(cp: Compiled, clock: Clock, clock': Clock, c: Core, c': Core, e: InputEvent)
    requires Fit(cp, c) && Fit(cp, c') && SameControl(c, c')
    ensures SameControl(Entered(cp, clock, c, e), Entered(cp, clock', c', e))
  {
    var t := Chosen(cp, c, e);
    ChosenApplies(cp, c, e);
    OutputsControl(cp, clock, clock', Enter(clock, c.(calls := c.calls + 1), t), Enter(clock', c'.(calls := c'.calls + 1), t),
                   t.outputs, Some(e));
  }

  /** Whether a call ends, and where, depends on layer, state and event alone. */
  lemma {:induction false} Control(cp: Compiled, clock: Clock, clock': Clock, c: Core, c': Core, e: InputEvent, d: nat)
    requires Fit(cp, c) && Fit(cp, c') && SameControl(c, c')
    ensures var r, r' := ProcessWithin(cp, clock, c, e, d), ProcessWithin(cp, clock', c', e, d);
      r.Some? == r'.Some? && (r.Some? ==> SameControl(r.value, r'.value))
    decreases d, 1, 0
  {
    if d > 0 {
      EnteredControl(cp, clock, clock', c, c', e);
      CallReplays(cp, clock, c, e, d);
      CallReplays(cp, clock', c', e, d);
      ControlAll(cp, clock, clock', Entered(cp, clock, c, e), Entered(cp, clock', c', e),
                 RedoEvents(Chosen(cp, c, e).outputs, Some(e)), d - 1);
    }
  }

  lemma {:induction false} ControlAll(cp: Compiled, clock: Clock, clock': Clock, c: Core, c': Core,
                                      events: seq<InputEvent>, d: nat)
    requires Fit(cp, c) && Fit(cp, c') && SameControl(c, c')
    ensures var r, r' := ProcessAllWithin(cp, clock, c, events, d), ProcessAllWithin(cp, clock', c', events, d);
      r.Some? == r'.Some? && (r.Some? ==> SameControl(r.value, r'.value))
    decreases d, 2, |events|
  {
    if events != [] {
      Control(cp, clock, clock', c, c', events[0], d);
      var r, r' := ProcessWithin(cp, clock, c, events[0], d), ProcessWithin(cp, clock', c', events[0], d);
      if r.Some? {
        ControlAll(cp, clock, clock', r.value, r'.value, events[1..], d);
      }
    }
  }

  // ---------- finitely many calls ----------

  datatype Call = Call(layer: nat, state: nat, event: InputEvent)

  const STILL: Clock := (i: nat) => 0

  function At(layer: nat, state: nat): Core {
    Core(layer, state, None, false, 0, EMPTY_OUT)
  }

  ghost function Calls(cp: Compiled, events: set<InputEvent>): set<Call> {
    set l, i, e | 0 <= l < |cp.states| && 0 <= i < |cp.states[l]| && e in events :: Call(l, i, e)
  }

  lemma CallFits(cp: Compiled, events: set<InputEvent>, call: Call)
    requires Fits(cp) && call in Calls(cp, events)
    ensures Fit(cp, At(call.layer, call.state)) && call.event in events
  {
  }

  /** The call has not ended `d` deep. */
  ghost predicate Unended(cp: Compiled, events: set<InputEvent>, call: Call, d: nat)
    requires Fits(cp) && call in Calls(cp, events)
  {
    CallFits(cp, events, call);
    ProcessWithin(cp, STILL, At(call.layer, call.state), call.event, d).None?
  }

  ghost function UnendedCalls(cp: Compiled, events: set<InputEvent>, d: nat): (calls: set<Call>)
    requires Fits(cp)
    ensures calls <= Calls(cp, events)
  {
    set call | call in Calls(cp, events) && Unended(cp, events, call, d)
  }

  /** Going one deeper ends no further call. */
  ghost predicate Settled(cp: Compiled, events: set<InputEvent>, d: nat)
    requires Fits(cp)
  {
    forall call :: call in Calls(cp, events) && Unended(cp, events, call, d) ==> Unended(cp, events, call, d + 1)
  }

  /** Processing one of `events` only replays `events`. */
  ghost predicate Closed(cp: Compiled, events: set<InputEvent>) {
    forall l: nat, i: nat, e :: l < |cp.states| && i < |cp.states[l]| && e in events ==> RedoIn(cp, l, i, e, events)
  }

  ghost predicate RedoIn(cp: Compiled, l: nat, i: nat, e: InputEvent, events: set<InputEvent>)
    requires l < |cp.states| && i < |cp.states[l]|
  {
    forall x :: x in RedoEvents(Chosen(cp, At(l, i), e).outputs, Some(e)) ==> x in events
  }

  /** If nothing changes from `d` to `d + 1`, a list of events ends at `d + 1` only if it ends at `d`. */
  lemma {:induction false} SettledAll(cp: Compiled, events: set<InputEvent>, c: Core, list: seq<InputEvent>, d: nat)
    requires Fit(cp, c) && !c.paused && Settled(cp, events, d) && forall x :: x in list ==> x in events
    requires ProcessAllWithin(cp, STILL, c, list, d + 1).Some?
    ensures ProcessAllWithin(cp, STILL, c, list, d).Some?
    decreases |list|
  {
    if list != [] {
      var call := Call(c.layer, c.state, list[0]);
      assert call in Calls(cp, events);
      CallFits(cp, events, call);
      Control(cp, STILL, STILL, c, At(c.layer, c.state), list[0], d);
      Control(cp, STILL, STILL, c, At(c.layer, c.state), list[0], d + 1);
      assert !Unended(cp, events, call, d + 1);
      Deeper(cp, STILL, c, list[0], d, d + 1);
      SettledAll(cp, events, ProcessWithin(cp, STILL, c, list[0], d).value, list[1..], d);
    }
  }

  lemma SettledNext(cp: Compiled, events: set<InputEvent>, d: nat)
    requires Fits(cp) && Closed(cp, events) && Settled(cp, events, d)
    ensures Settled(cp, events, d + 1)
  {
    forall call | call in Calls(cp, events) && !Unended(cp, events, call, d + 2)
      ensures !Unended(cp, events, call, d + 1)
    {
      CallFits(cp, events, call);
      SettledCall(cp, events, At(call.layer, call.state), call.event, d);
    }
  }

  lemma SettledCall(cp: Compiled, events: set<InputEvent>, c: Core, e: InputEvent, d: nat)
    requires Fit(cp, c) && c == At(c.layer, c.state) && Closed(cp, events) && Settled(cp, events, d) && e in events
    requires ProcessWithin(cp, STILL, c, e, d + 2).Some?
    ensures ProcessWithin(cp, STILL, c, e, d + 1).Some?
  {
    assert RedoIn(cp, c.layer, c.state, e, events);
    CallReplays(cp, STILL, c, e, d + 1);
    CallReplays(cp, STILL, c, e, d + 2);
    SettledAll(cp, events, Entered(cp, STILL, c, e), RedoEvents(Chosen(cp, c, e).outputs, Some(e)), d);
  }

  lemma {:induction false} SettledForGood(cp: Compiled, events: set<InputEvent>, call: Call, d: nat, d': nat)
    requires Fits(cp) && Closed(cp, events) && Settled(cp, events, d) && d <= d'
    requires call in Calls(cp, events) && Unended(cp, events, call, d)
    ensures Settled(cp, events, d') && Unended(cp, events, call, d')
    decreases d'
  {
    if d < d' {
      SettledForGood(cp, events, call, d, d' - 1);
      SettledNext(cp, events, d' - 1);
    }
  }

  lemma FewerUnended(cp: Compiled, events: set<InputEvent>, d: nat)
    requires Fits(cp) && !Settled(cp, events, d)
    ensures |UnendedCalls(cp, events, d + 1)| < |UnendedCalls(cp, events, d)|
  {
    var now, next := UnendedCalls(cp, events, d), UnendedCalls(cp, events, d + 1);
    forall call | call in next
      ensures call in now
    {
      CallFits(cp, events, call);
      if !Unended(cp, events, call, d) {
        Deeper(cp, STILL, At(call.layer, call.state), call.event, d, d + 1);
      }
    }
    var call :| call in Calls(cp, events) && Unended(cp, events, call, d) && !Unended(cp, events, call, d + 1);
    assert call in now && call !in next;
    Smaller(next, now);
  }

  lemma Smaller<T>(a: set<T>, b: set<T>)
    requires a < b
    ensures |a| < |b|
  {
    var x :| x in b && x !in a;
    assert x in b - a && |b| == |a| + |b - a|;
  }

  lemma {:induction false} Subset<T>(a: set<T>, b: set<T>)
    requires a <= b
    ensures |a| <= |b|
  {
    if a < b {
      Smaller(a, b);
    } else {
      assert a == b;
    }
  }

  lemma {:induction false} SettledOrFewer(cp: Compiled, events: set<InputEvent>, d: nat)
    requires Fits(cp) && Closed(cp, events)
    ensures Settled(cp, events, d) || |UnendedCalls(cp, events, d)| + d <= |Calls(cp, events)|
    decreases d
  {
    if d == 0 {
      Subset(UnendedCalls(cp, events, 0), Calls(cp, events));
    } else {
      SettledOrFewer(cp, events, d - 1);
      if Settled(cp, events, d - 1) {
        SettledNext(cp, events, d - 1);
      } else {
        FewerUnended(cp, events, d - 1);
      }
    }
  }

  /** As many levels as there are calls are enough for every call that ends at all. */
  lemma EnoughDepth(cp: Compiled, events: set<InputEvent>)
    requires Fits(cp) && Closed(cp, events)
    ensures Settled(cp, events, |Calls(cp, events)|)
  {
    var n := |Calls(cp, events)|;
    SettledOrFewer(cp, events, n);
    assert forall call :: call in Calls(cp, events) && Unended(cp, events, call, n) ==> call in UnendedCalls(cp, events, n);
  }

  // ---------- the events a profile replays ----------

  function ReplayedBy(outputs: seq<StateMachineOutput>): set<InputEvent> {
    set k | 0 <= k < |outputs| && outputs[k].ProcessInput? && outputs[k].event.Some? :: outputs[k].event.value
  }

  lemma {:induction false} RedoReplayed(outputs: seq<StateMachineOutput>, e: InputEvent, x: InputEvent)
    requires x in RedoEvents(outputs, Some(e))
    ensures x in ReplayedBy(outputs) || x == e
  {
    var before, last := outputs[..|outputs| - 1], outputs[|outputs| - 1];
    if x in RedoEvents(before, Some(e)) {
      RedoReplayed(before, e, x);
      if x in ReplayedBy(before) {
        var k :| 0 <= k < |before| && before[k].ProcessInput? && before[k].event.Some? && before[k].event.value == x;
        assert outputs[k] == before[k];
      }
    }
  }

  function StateReplays(state: State): set<InputEvent> {
    ReplayedBy(state.fallback.outputs) + (set e, x | e in state.edges && x in ReplayedBy(state.edges[e].outputs) :: x)
  }

  /** All events some transition of the profile replays. */
  function Replayed(cp: Compiled): set<InputEvent> {
    set l, i, x | 0 <= l < |cp.states| && 0 <= i < |cp.states[l]| && x in StateReplays(cp.states[l][i]) :: x
  }

  lemma ReplayedClosed(cp: Compiled, e: InputEvent)
    ensures Closed(cp, Replayed(cp) + {e})
  {
    var events := Replayed(cp) + {e};
    forall l: nat, i: nat, f | l < |cp.states| && i < |cp.states[l]| && f in events
      ensures RedoIn(cp, l, i, f, events)
    {
      forall x | x in RedoEvents(Chosen(cp, At(l, i), f).outputs, Some(f))
        ensures x in events
      {
        RedoReplayed(Chosen(cp, At(l, i), f).outputs, f, x);
        assert x == f || x in StateReplays(cp.states[l][i]);
      }
    }
  }

  /** The number of calls there can be: a layer, a state, and an event that is `e` or is replayed somewhere. */
  ghost function EnoughFor(cp: Compiled, e: InputEvent): nat {
    |Calls(cp, Replayed(cp) + {e})|
  }

  /** What a caller can find out beforehand, without a clock: does the call end that deep? */
  ghost predicate Ends(cp: Compiled, layer: nat, state: nat, e: InputEvent)
    requires Fits(cp) && layer < |cp.states| && state < |cp.states[layer]|
  {
    ProcessWithin(cp, STILL, At(layer, state), e, EnoughFor(cp, e)).Some?
  }

  /** A call ends if and only if it ends within as many levels as there are calls, whatever the clock and the queue. */
  lemma EndsExactly(cp: Compiled, clock: Clock, c: Core, e: InputEvent)
    requires Fit(cp, c) && !c.paused
    ensures (exists d: nat :: ProcessWithin(cp, clock, c, e, d).Some?) <==> Ends(cp, c.layer, c.state, e)
    ensures Ends(cp, c.layer, c.state, e) <==> ProcessWithin(cp, clock, c, e, EnoughFor(cp, e)).Some?
  {
    var events, n, at := Replayed(cp) + {e}, EnoughFor(cp, e), At(c.layer, c.state);
    var call := Call(c.layer, c.state, e);
    assert call in Calls(cp, events);
    ReplayedClosed(cp, e);
    EnoughDepth(cp, events);
    Control(cp, clock, STILL, c, at, e, n);
    forall d: nat | ProcessWithin(cp, clock, c, e, d).Some?
      ensures Ends(cp, c.layer, c.state, e)
    {
      Control(cp, clock, STILL, c, at, e, d);
      if d <= n {
        Deeper(cp, STILL, at, e, d, n);
      } else if Unended(cp, events, call, n) {
        SettledForGood(cp, events, call, n, d);
      }
    }
  }

  /** Every call on a profile ends, whatever state it is made in. */
  ghost predicate AlwaysEnds(cp: Compiled)
    requires Fits(cp)
  {
    forall l: nat, i: nat, e :: l < |cp.states| && i < |cp.states[l]| ==> Ends(cp, l, i, e)
  }

  /** Where replays end by the measure on held events, every call ends. */
  lemma RunnableEnds(cp: Compiled)
    requires Runnable(cp)
    ensures AlwaysEnds(cp)
  {
    forall l: nat, i: nat, e | l < |cp.states| && i < |cp.states[l]|
      ensures Ends(cp, l, i, e)
    {
      var c := At(l, i);
      NestingBound(cp, STILL, c, e, |HeldBy(cp, c)| + 1);
      EndsExactly(cp, STILL, c, e);
    }
  }

  /** So it does for every sound profile. */
  lemma SoundEnds(p: Profile)
    requires Sound(p) && CompileProfile(p).Some?
    ensures Fits(CompileProfile(p).value) && AlwaysEnds(CompileProfile(p).value)
  {
    SoundAdmissible(p);
    RunnableEnds(CompileProfile(p).value);
  }
}
