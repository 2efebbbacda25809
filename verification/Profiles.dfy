/** Optional values, as `std::optional` is used throughout the program. */
module Options {
  datatype Option<+T> = None | Some(value: T)
}

/** Profiles, layers, triggers, binds and events: the plain values of the program. */
module Profiles {
  import opened Options

  type KeyCode = nat

  datatype KeyEventType = Press | Release

  /** Application names are compared exactly here; see README. */
  datatype InputEvent =
    | AppFocusedEvent(appName: string)
    | KeyEvent(keyCode: KeyCode, eventType: KeyEventType)

  datatype OutputEvent =
    | KeyOutput(keyCode: KeyCode, eventType: KeyEventType)
    | ScriptOutput(interpreter: string, script: string)

  datatype SequenceBehavior = Capture | Release | Default

  datatype AdvancedTrigger =
    | KeyPress(keyCode: KeyCode)
    | KeyRelease(keyCode: KeyCode)
    | AppFocused(appName: string)
    | MinimumWait(ms: nat)
    | MaximumWait(ms: nat)
  {
    predicate IsTimer() {
      MinimumWait? || MaximumWait?
    }
  }

  type BasicTrigger = t: AdvancedTrigger | !t.IsTimer() witness KeyPress(0)
  type Timer = t: AdvancedTrigger | t.IsTimer() witness MinimumWait(0)

  datatype Bind =
    | PressKey(keyCode: KeyCode)
    | ReleaseKey(keyCode: KeyCode)
    | SwapLayer(newLayer: nat)
    | Wait(ms: nat)
    | RunScript(interpreter: string, script: string)

  datatype SequenceTrigger =
    SequenceTrigger(behavior: SequenceBehavior, sequence: seq<AdvancedTrigger>, binds: seq<Bind>)

  datatype BasicRemapping = BasicRemapping(trigger: BasicTrigger, binds: seq<Bind>)

  datatype Layer =
    Layer(layerName: string, basicRemappings: seq<BasicRemapping>, sequenceRemappings: seq<SequenceTrigger>)

  datatype Profile = Profile(name: string, layers: seq<Layer>, defaultLayer: nat)

  function BasicTriggerToInput(t: BasicTrigger): InputEvent {
    match t
    case KeyPress(k) => KeyEvent(k, KeyEventType.Press)
    case KeyRelease(k) => KeyEvent(k, KeyEventType.Release)
    case AppFocused(a) => AppFocusedEvent(a)
  }

  function TriggerToInput(t: AdvancedTrigger): Option<InputEvent> {
    if t.IsTimer() then None else Some(BasicTriggerToInput(t))
  }

  /** No leading timer and no two timers side by side. */
  predicate NormalForm(triggers: seq<AdvancedTrigger>) {
    forall i :: 0 <= i < |triggers| && triggers[i].IsTimer() ==> i > 0 && !triggers[i - 1].IsTimer()
  }

  predicate NormalLayer(layer: Layer) {
    forall i :: 0 <= i < |layer.sequenceRemappings| ==> NormalForm(layer.sequenceRemappings[i].sequence)
  }

  /** An input trigger together with the timer written directly after it, if any. */
  datatype Node = Node(event: InputEvent, timer: Option<Timer>)

  /** A sequence remapping with each timer attached to the input it follows. */
  datatype Sequence = Sequence(behavior: SequenceBehavior, nodes: seq<Node>, binds: seq<Bind>)

  function Nodes(triggers: seq<AdvancedTrigger>): (nodes: seq<Node>)
    requires NormalForm(triggers)
  {
    if triggers == [] then []
    else
      var event := BasicTriggerToInput(triggers[0]);
      if |triggers| > 1 && triggers[1].IsTimer() then
        [Node(event, Some(triggers[1]))] + Nodes(triggers[2..])
      else
        [Node(event, None)] + Nodes(triggers[1..])
  }

  function Parse(t: SequenceTrigger): Sequence
    requires NormalForm(t.sequence)
  {
    Sequence(t.behavior, Nodes(t.sequence), t.binds)
  }

  /** The trigger that waits for an event. */
  function TriggerFor(event: InputEvent): BasicTrigger {
    match event
    case AppFocusedEvent(a) => AppFocused(a)
    case KeyEvent(k, Press) => KeyPress(k)
    case KeyEvent(k, Release) => KeyRelease(k)
  }

  /** Nodes written out as triggers again. */
  function Spelled(nodes: seq<Node>): seq<AdvancedTrigger> {
    if nodes == [] then []
    else
      var rest := Spelled(nodes[1..]);
      if nodes[0].timer.Some? then [TriggerFor(nodes[0].event), nodes[0].timer.value] + rest
      else [TriggerFor(nodes[0].event)] + rest
  }

  lemma NormalRest(triggers: seq<AdvancedTrigger>, i: nat)
    requires NormalForm(triggers) && i <= |triggers| && (i < |triggers| ==> !triggers[i].IsTimer())
    ensures NormalForm(triggers[i..])
  {
  }

  /** Reading a sequence as nodes loses nothing: a press stays a press, a release a release, and each wait stays where it was. */
  lemma {:induction false} NodesSpell(triggers: seq<AdvancedTrigger>)
    requires NormalForm(triggers)
    ensures Spelled(Nodes(triggers)) == triggers
    decreases |triggers|
  {
    if triggers != [] {
      assert !triggers[0].IsTimer();
      var n := if |triggers| > 1 && triggers[1].IsTimer() then 2 else 1;
      assert forall i :: 1 <= i < |triggers| && triggers[i].IsTimer() ==> !triggers[i - 1].IsTimer();
      NormalRest(triggers, n);
      NodesSpell(triggers[n..]);
      assert Nodes(triggers)[1..] == Nodes(triggers[n..]);
      assert triggers == triggers[..n] + triggers[n..];
    }
  }

  /** A parsed sequence is the one written. */
  lemma ParsedAsWritten(t: SequenceTrigger)
    requires NormalForm(t.sequence)
    ensures var s := Parse(t); s.behavior == t.behavior && s.binds == t.binds && Spelled(s.nodes) == t.sequence
  {
    NodesSpell(t.sequence);
  }

  function ParseLayer(layer: Layer): (seqs: seq<Sequence>)
    requires NormalLayer(layer)
    ensures |seqs| == |layer.sequenceRemappings|
  {
    seq(|layer.sequenceRemappings|, i requires 0 <= i < |layer.sequenceRemappings| =>
      Parse(layer.sequenceRemappings[i]))
  }

  /** The input events of a list of nodes: the trigger word. */
  function Events(nodes: seq<Node>): (word: seq<InputEvent>)
    ensures |word| == |nodes|
    ensures forall i :: 0 <= i < |nodes| ==> word[i] == nodes[i].event
  {
    seq(|nodes|, i requires 0 <= i < |nodes| => nodes[i].event)
  }

  function Ms(timer: Option<Timer>): Option<nat> {
    match timer
    case None => None
    case Some(t) => Some(t.ms)
  }

  predicate IsMinimum(timer: Option<Timer>) {
    timer.Some? && timer.value.MinimumWait?
  }
}
