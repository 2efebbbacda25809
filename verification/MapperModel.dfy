/** The interpreter as a function from states to states. */
module MapperModel {
  import opened Options
  import opened Profiles
  import opened Automata
  import StateMachine
  import TreeShape
  import opened Outputs

  /** A profile made ready to run: an automaton and a basic map per layer. */
  datatype Compiled = Compiled(states: seq<seq<State>>, basics: seq<map<InputEvent, seq<Bind>>>)

  datatype Core = Core(layer: nat, state: nat, timer: Option<nat>, paused: bool, calls: nat, out: Out)

  // ---------- automata that can be run ----------

  /** The events a list of outputs carries along: what a state still holds back. */
  function Carried(outputs: seq<StateMachineOutput>): seq<InputEvent> {
    if outputs == [] then []
    else
      var last := outputs[|outputs| - 1];
      Carried(outputs[..|outputs| - 1]) + if !last.Emit? && last.event.Some? then [last.event.value] else []
  }

  /** The events processed again once the other outputs are out. */
  function RedoEvents(outputs: seq<StateMachineOutput>, prev: Option<InputEvent>): seq<InputEvent> {
    if outputs == [] then []
    else
      var last := outputs[|outputs| - 1];
      var rest := RedoEvents(outputs[..|outputs| - 1], prev);
      if !last.ProcessInput? then rest
      else if last.event.Some? then rest + [last.event.value]
      else if prev.Some? then rest + [prev.value]
      else rest
  }

  predicate NoReplay(outputs: seq<StateMachineOutput>) {
    forall i :: 0 <= i < |outputs| ==> !outputs[i].ProcessInput?
  }

  predicate OutputsBelow(outputs: seq<StateMachineOutput>, layers: nat) {
    forall i :: 0 <= i < |outputs| && outputs[i].Emit? && outputs[i].bind.SwapLayer? ==>
      outputs[i].bind.newLayer < layers
  }

  function Held(states: seq<State>, i: nat): seq<InputEvent>
    requires i < |states|
  {
    Carried(states[i].fallback.outputs)
  }

  /** A transition that replays goes home and replays fewer events than the state holds. */
  ghost predicate Replays(t: Transition, held: nat) {
    || NoReplay(t.outputs)
    || (t.newState == HOME_STATE_IDX && forall prev :: |RedoEvents(t.outputs, prev)| < held)
  }

  /** Following an edge takes up at most one more event, unless a minimum wait has just run out. */
  ghost predicate EdgeHolds(states: seq<State>, i: nat, t: Transition)
    requires i < |states| && t.newState < |states|
  {
    && NoReplay(t.outputs)
    && (t.newState != HOME_STATE_IDX ==>
      && states[t.newState].fallback.outputs != []
      && (states[i].fallback.outputs != [] ==> |Held(states, t.newState)| <= |Held(states, i)| + 1))
  }

  /** What keeps the replaying of held-back events from going on for ever. */
  ghost predicate Replayable(states: seq<State>) {
    && StateMachine.InRange(states)
    && states[HOME_STATE_IDX].fallback.outputs != [] && Held(states, HOME_STATE_IDX) == []
    && forall i :: 0 <= i < |states| ==>
      && Replays(states[i].fallback, |Held(states, i)|)
      && (states[i].timer.Some? ==> Replays(states[i].timer.value, |Held(states, i)|))
      && forall e :: e in states[i].edges ==> EdgeHolds(states, i, states[i].edges[e])
  }

  /** Every layer swap out of the state is to one of the `layers` layers. */
  predicate StateBelow(state: State, layers: nat) {
    && OutputsBelow(state.fallback.outputs, layers)
    && (state.timer.Some? ==> OutputsBelow(state.timer.value.outputs, layers))
    && forall e :: e in state.edges ==> OutputsBelow(state.edges[e].outputs, layers)
  }

  predicate BindsBelow(states: seq<State>, layers: nat) {
    forall i :: 0 <= i < |states| ==> StateBelow(states[i], layers)
  }

  /** No lookup in the automaton of layer `l` can fail, and its timers are answered. */
  ghost predicate LayerFits(cp: Compiled, l: nat)
    requires l < |cp.states|
  {
    && StateMachine.InRange(cp.states[l]) && TreeShape.TimersAnswered(cp.states[l])
    && BindsBelow(cp.states[l], |cp.states|)
  }

  /** The automaton of layer `l` can be run, and no replay goes on for ever. */
  ghost predicate LayerRuns(cp: Compiled, l: nat)
    requires l < |cp.states|
  {
    LayerFits(cp, l) && Replayable(cp.states[l])
  }

  /** The basic remappings of layer `l` only name layers that exist. */
  ghost predicate BasicsRun(cp: Compiled, l: nat)
    requires l < |cp.basics|
  {
    forall e :: e in cp.basics[l] ==> SwapsBelow(cp.basics[l][e], |cp.states|)
  }

  /** Whatever state a layer is in, no lookup fails. */
  ghost predicate Fits(cp: Compiled) {
    && |cp.states| == |cp.basics| > 0
    && (forall l: nat {:trigger LayerFits(cp, l)} :: l < |cp.states| ==> LayerFits(cp, l))
    && (forall l: nat {:trigger BasicsRun(cp, l)} :: l < |cp.basics| ==> BasicsRun(cp, l))
  }

  ghost predicate Runnable(cp: Compiled) {
    Fits(cp) && forall l: nat {:trigger LayerRuns(cp, l)} :: l < |cp.states| ==> LayerRuns(cp, l)
  }

  /** Layer and state are in range, an armed timer is answered, and nothing is pending while paused. */
  ghost predicate CoreOk(cp: Compiled, c: Core) {
    && |cp.states| == |cp.basics|
    && c.layer < |cp.states| && c.state < |cp.states[c.layer]|
    && (c.timer.Some? ==> cp.states[c.layer][c.state].timer.Some?)
    && (c.paused ==> c.out.queue == [] && c.timer.None?)
  }

  ghost predicate Ok(cp: Compiled, c: Core) {
    Runnable(cp) && CoreOk(cp, c)
  }

  ghost predicate Fit(cp: Compiled, c: Core) {
    Fits(cp) && CoreOk(cp, c)
  }

  /** The transition can be applied in the current layer. */
  ghost predicate Applies(cp: Compiled, c: Core, t: Transition)
    requires c.layer < |cp.states|
  {
    && t.newState < |cp.states[c.layer]| && OutputsBelow(t.outputs, |cp.states|)
    && (t.timerMs.Some? ==> cp.states[c.layer][t.newState].timer.Some?)
  }

  function HeldBy(cp: Compiled, c: Core): seq<InputEvent>
    requires c.layer < |cp.states| && c.state < |cp.states[c.layer]|
  {
    Held(cp.states[c.layer], c.state)
  }

  /** The state is not one in which a minimum wait has just run out. */
  predicate Holding(cp: Compiled, c: Core)
    requires c.layer < |cp.states| && c.state < |cp.states[c.layer]|
  {
    cp.states[c.layer][c.state].fallback.outputs != []
  }

  // ---------- outputs of a transition ----------

  function SwapTo(c: Core, layer: Option<nat>): Core {
    match layer
    case None => c
    case Some(n) => c.(layer := n, state := HOME_STATE_IDX, timer := None)
  }

  function Remapping(cp: Compiled, layer: nat, event: InputEvent): Option<seq<Bind>>
    requires layer < |cp.basics|
  {
    if event in cp.basics[layer] then Some(cp.basics[layer][event]) else None
  }

  function Deliver(cp: Compiled, clock: Clock, c: Core, event: InputEvent): Core
    requires c.layer < |cp.basics|
  {
    var remapping := Remapping(cp, c.layer, event);
    SwapTo(c.(out := DeliverOut(clock, c.out, event, remapping)), DeliverSwap(remapping))
  }

  function EmitBind(clock: Clock, c: Core, bind: Bind): Core {
    SwapTo(c.(out := EmitOut(clock, c.out, bind)), LastSwap([bind]))
  }

  /** One direct output; replays are left for later. */
  function RunOutput(cp: Compiled, clock: Clock, c: Core, output: StateMachineOutput, prev: Option<InputEvent>): Core
    requires c.layer < |cp.basics|
  {
    match output
    case ProcessInput(_) => c
    case BasicTranslation(event) =>
      var e := if event.Some? then event else prev;
      if e.Some? then Deliver(cp, clock, c, e.value) else c
    case Emit(bind) => EmitBind(clock, c, bind)
  }

  lemma RunOutputInRange(cp: Compiled, clock: Clock, c: Core, output: StateMachineOutput, prev: Option<InputEvent>)
    requires Fit(cp, c) && !c.paused && OutputsBelow([output], |cp.states|)
    ensures RunOutput(cp, clock, c, output, prev).layer < |cp.states|
  {
    assert [output][0] == output;
    match output
    case ProcessInput(_) =>
    case BasicTranslation(event) =>
      assert BasicsRun(cp, c.layer);
      var e := if event.Some? then event else prev;
      if e.Some? && e.value in cp.basics[c.layer] {
        LastSwapBelow(cp.basics[c.layer][e.value], |cp.states|);
      }
    case Emit(bind) => LastSwapBelow([bind], |cp.states|);
  }

  lemma RunOutputOk(cp: Compiled, clock: Clock, c: Core, output: StateMachineOutput, prev: Option<InputEvent>)
    requires Fit(cp, c) && !c.paused && OutputsBelow([output], |cp.states|)
    ensures var r := RunOutput(cp, clock, c, output, prev);
      && CoreOk(cp, r) && !r.paused && r.calls == c.calls
      && ((r.layer == c.layer && r.state == c.state && r.timer == c.timer) || (r.state == HOME_STATE_IDX && r.timer.None?))
  {
    assert LayerFits(cp, RunOutput(cp, clock, c, output, prev).layer) by {
      RunOutputInRange(cp, clock, c, output, prev);
    }
    match output
    case ProcessInput(_) =>
    case BasicTranslation(event) =>
      var e := if event.Some? then event else prev;
      if e.Some? && e.value in cp.basics[c.layer] {
        assert BasicsRun(cp, c.layer);
        LastSwapBelow(cp.basics[c.layer][e.value], |cp.states|);
      }
    case Emit(bind) =>
      assert [output][0] == output;
      LastSwapBelow([bind], |cp.states|);
  }

  function RunOutputs(cp: Compiled, clock: Clock, c: Core, outputs: seq<StateMachineOutput>,
                      prev: Option<InputEvent>): (r: Core)
    requires Fit(cp, c) && !c.paused && OutputsBelow(outputs, |cp.states|)
    ensures CoreOk(cp, r) && !r.paused && r.calls == c.calls
    ensures (r.layer == c.layer && r.state == c.state && r.timer == c.timer) || (r.state == HOME_STATE_IDX && r.timer.None?)
  {
    if outputs == [] then c
    else
      var c' := RunOutputs(cp, clock, c, outputs[..|outputs| - 1], prev);
      RunOutputOk(cp, clock, c', outputs[|outputs| - 1], prev);
      RunOutput(cp, clock, c', outputs[|outputs| - 1], prev)
  }

  lemma EmitsBelow(binds: seq<Bind>, layers: nat)
    requires SwapsBelow(binds, layers)
    ensures OutputsBelow(EmitAll(binds), layers)
  {
  }

  /** The last of a list of binds. */
  lemma RunEmitsNext(cp: Compiled, clock: Clock, c: Core, binds: seq<Bind>, prev: Option<InputEvent>)
    requires Fit(cp, c) && !c.paused && binds != [] && OutputsBelow(EmitAll(binds), |cp.states|)
    ensures var before := EmitAll(binds[..|binds| - 1]);
      && OutputsBelow(before, |cp.states|)
      && RunOutputs(cp, clock, c, EmitAll(binds), prev) ==
         EmitBind(clock, RunOutputs(cp, clock, c, before, prev), binds[|binds| - 1])
  {
    assert EmitAll(binds)[..|binds| - 1] == EmitAll(binds[..|binds| - 1]);
  }

  // ---------- processing ----------

  /** Enter the new state, arming its timer when the transition says so. */
  function Enter(clock: Clock, c: Core, t: Transition): Core {
    match t.timerMs
    case None => c.(state := t.newState, timer := None)
    case Some(ms) =>
      c.(state := t.newState, timer := Some(ms + clock(c.out.ticks)), out := c.out.(ticks := c.out.ticks + 1))
  }

  lemma {:induction false} NoReplayNoRedo(outputs: seq<StateMachineOutput>, prev: Option<InputEvent>)
    requires NoReplay(outputs)
    ensures RedoEvents(outputs, prev) == []
  {
    if outputs != [] {
      NoReplayNoRedo(outputs[..|outputs| - 1], prev);
    }
  }

  function Apply(cp: Compiled, clock: Clock, c: Core, t: Transition, prev: Option<InputEvent>): (r: Core)
    requires Ok(cp, c) && !c.paused
    requires t.newState < |cp.states[c.layer]| && OutputsBelow(t.outputs, |cp.states|)
    requires t.timerMs.Some? ==> cp.states[c.layer][t.newState].timer.Some?
    requires NoReplay(t.outputs) || t.newState == HOME_STATE_IDX
    ensures CoreOk(cp, r) && !r.paused
    ensures NoReplay(t.outputs) ==> RedoEvents(t.outputs, prev) == []
    ensures NoReplay(t.outputs) ==> r == RunOutputs(cp, clock, Enter(clock, c, t), t.outputs, prev)
    ensures RedoEvents(t.outputs, prev) != [] ==> Holding(cp, r) && |HeldBy(cp, r)| <= |RedoEvents(t.outputs, prev)|
    decreases |RedoEvents(t.outputs, prev)|, 1, 0
  {
    var c1 := RunOutputs(cp, clock, Enter(clock, c, t), t.outputs, prev);
    var redo := RedoEvents(t.outputs, prev);
    assert NoReplay(t.outputs) ==> redo == [] by {
      if NoReplay(t.outputs) { NoReplayNoRedo(t.outputs, prev); }
    }
    if redo == [] then c1
    else
      assert LayerRuns(cp, c1.layer);
      ProcessAll(cp, clock, c1, redo)
  }

  /** The transition taken on `e`. */
  function Chosen(cp: Compiled, c: Core, e: InputEvent): Transition
    requires c.layer < |cp.states| && c.state < |cp.states[c.layer]|
  {
    var state := cp.states[c.layer][c.state];
    if e in state.edges then state.edges[e] else state.fallback
  }

  /** Whichever transition is taken can be applied, and replays fewer events than are held. */
  lemma ChosenFits(cp: Compiled, c: Core, e: InputEvent)
    requires Ok(cp, c)
    ensures var t := Chosen(cp, c, e);
      && t.newState < |cp.states[c.layer]| && OutputsBelow(t.outputs, |cp.states|)
      && (t.timerMs.Some? ==> cp.states[c.layer][t.newState].timer.Some?)
      && (NoReplay(t.outputs) || t.newState == HOME_STATE_IDX)
      && (RedoEvents(t.outputs, Some(e)) != [] ==>
           t.newState == HOME_STATE_IDX && |RedoEvents(t.outputs, Some(e))| < |HeldBy(cp, c)|)
      && cp.states[c.layer][t.newState].fallback.outputs != []
      && (Holding(cp, c) ==> |Held(cp.states[c.layer], t.newState)| <= |HeldBy(cp, c)| + 1)
  {
    var t := Chosen(cp, c, e);
    assert LayerRuns(cp, c.layer);
    if e in cp.states[c.layer][c.state].edges {
      assert EdgeHolds(cp.states[c.layer], c.state, t);
    }
    if NoReplay(t.outputs) {
      NoReplayNoRedo(t.outputs, Some(e));
    }
  }

  function Process(cp: Compiled, clock: Clock, c: Core, e: InputEvent): (r: Core)
    requires Ok(cp, c)
    ensures CoreOk(cp, r) && r.paused == c.paused
    ensures !c.paused ==> Holding(cp, r)
    ensures Holding(cp, c) ==> |HeldBy(cp, r)| <= |HeldBy(cp, c)| + 1
    decreases |HeldBy(cp, c)|, 2, 0
  {
    var c1 := c.(calls := c.calls + 1);
    if c.paused then c1.(out := ForwardOut(c1.out, e))
    else
      ChosenFits(cp, c, e);
      var r := Apply(cp, clock, c1, Chosen(cp, c, e), Some(e));
      assert LayerRuns(cp, r.layer);
      r
  }

  function ProcessAll(cp: Compiled, clock: Clock, c: Core, events: seq<InputEvent>): (r: Core)
    requires Ok(cp, c) && !c.paused && Holding(cp, c)
    ensures CoreOk(cp, r) && !r.paused && Holding(cp, r)
    ensures |HeldBy(cp, r)| <= |HeldBy(cp, c)| + |events|
    decreases |HeldBy(cp, c)| + |events|, 0, |events|
  {
    if events == [] then c
    else ProcessAll(cp, clock, Process(cp, clock, c, events[0]), events[1..])
  }
}
