/** The output queue: entries with due times, what was sent, and a history of how it came about. */
module Outputs {
  import opened Options
  import opened Profiles
  import opened Automata

  datatype Entry = Entry(due: nat, event: OutputEvent)

  /** What happened, in order: an event handed to basic translation, a sequence bind run, an output queued. */
  datatype LogEntry = Delivered(event: InputEvent) | Emitted(bind: Bind) | Queued(entry: Entry)

  /** What reached the daemon: a queued entry flushed at some time, or an event forwarded while paused. */
  datatype Sent = Flushed(entry: Entry, at: nat) | Forwarded(event: OutputEvent)

  /** `ticks` counts the clock readings made so far; reading number i yields clock(i). */
  datatype Out =
    Out(queue: seq<Entry>, ticks: nat, log: seq<LogEntry>, sent: seq<Sent>, dropped: seq<Entry>)

  const EMPTY_OUT := Out([], 0, [], [], [])

  type Clock = nat -> nat

  ghost predicate Monotone(clock: Clock) {
    forall i: nat, j: nat :: i <= j ==> clock(i) <= clock(j)
  }

  function QueueOutput(clock: Clock, out: Out, event: OutputEvent, delay: nat): Out {
    var entry := Entry(clock(out.ticks) + delay, event);
    out.(queue := out.queue + [entry], ticks := out.ticks + 1, log := out.log + [Queued(entry)])
  }

  /** The output a bind queues, if any. */
  function BindOutput(bind: Bind): Option<OutputEvent> {
    match bind
    case PressKey(k) => Some(KeyOutput(k, KeyEventType.Press))
    case ReleaseKey(k) => Some(KeyOutput(k, KeyEventType.Release))
    case RunScript(i, s) => Some(ScriptOutput(i, s))
    case SwapLayer(_) => None
    case Wait(_) => None
  }

  function TotalWait(binds: seq<Bind>): nat {
    if binds == [] then 0
    else
      var last := binds[|binds| - 1];
      TotalWait(binds[..|binds| - 1]) + if last.Wait? then last.ms else 0
  }

  /** Queue the outputs of `binds`, each delayed by the waits before it. */
  function RunBinds(clock: Clock, out: Out, binds: seq<Bind>): Out {
    if binds == [] then out
    else
      var before := binds[..|binds| - 1];
      var out' := RunBinds(clock, out, before);
      match BindOutput(binds[|binds| - 1])
      case Some(event) => QueueOutput(clock, out', event, TotalWait(before))
      case None => out'
  }

  /** The layer the last SwapLayer among `binds` asks for. */
  function LastSwap(binds: seq<Bind>): Option<nat> {
    if binds == [] then None
    else
      var last := binds[|binds| - 1];
      if last.SwapLayer? then Some(last.newLayer) else LastSwap(binds[..|binds| - 1])
  }

  predicate SwapsBelow(binds: seq<Bind>, layers: nat) {
    forall i :: 0 <= i < |binds| && binds[i].SwapLayer? ==> binds[i].newLayer < layers
  }

  lemma {:induction false} LastSwapBelow(binds: seq<Bind>, layers: nat)
    requires SwapsBelow(binds, layers)
    ensures LastSwap(binds).Some? ==> LastSwap(binds).value < layers
  {
    if binds != [] {
      LastSwapBelow(binds[..|binds| - 1], layers);
    }
  }

  /** Basic translation of `event`: its remapping if it has one, otherwise the key itself. */
  function DeliverOut(clock: Clock, out: Out, event: InputEvent, remapping: Option<seq<Bind>>): Out {
    var out' := out.(log := out.log + [Delivered(event)]);
    match remapping
    case Some(binds) => RunBinds(clock, out', binds)
    case None =>
      if event.KeyEvent? then QueueOutput(clock, out', KeyOutput(event.keyCode, event.eventType), 0) else out'
  }

  function DeliverSwap(remapping: Option<seq<Bind>>): Option<nat> {
    match remapping
    case Some(binds) => LastSwap(binds)
    case None => None
  }

  /** One sequence bind; queued on its own, so a Wait before it has no effect. */
  function EmitOut(clock: Clock, out: Out, bind: Bind): Out {
    RunBinds(clock, out.(log := out.log + [Emitted(bind)]), [bind])
  }

  /** While paused a key goes straight to the daemon and anything else is ignored. */
  function ForwardOut(out: Out, event: InputEvent): Out {
    if event.KeyEvent? then out.(sent := out.sent + [Forwarded(KeyOutput(event.keyCode, event.eventType))]) else out
  }
}
