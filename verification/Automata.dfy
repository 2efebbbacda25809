/** The automaton a layer compiles to, as values. */
module Automata {
  import opened Options
  import opened Profiles

  const HOME_STATE_IDX: nat := 0

  datatype StateMachineOutput =
    | ProcessInput(event: Option<InputEvent>)
    | BasicTranslation(event: Option<InputEvent>)
    | Emit(bind: Bind)

  datatype Transition =
    Transition(timerMs: Option<nat>, outputs: seq<StateMachineOutput>, newState: nat)

  datatype State =
    State(edges: map<InputEvent, Transition>, fallback: Transition, timer: Option<Transition>)

  datatype StateMetadata = StateMetadata(timer: Option<Timer>, behavior: SequenceBehavior)

  /** What the construction carries along: the states and, index by index, their metadata. */
  datatype Build = Build(states: seq<State>, metadata: seq<StateMetadata>)

  function EmitAll(binds: seq<Bind>): (outputs: seq<StateMachineOutput>)
    ensures |outputs| == |binds|
    ensures forall i :: 0 <= i < |binds| ==> outputs[i] == Emit(binds[i])
  {
    seq(|binds|, i requires 0 <= i < |binds| => Emit(binds[i]))
  }

  function ReplayAll(events: seq<InputEvent>): (outputs: seq<StateMachineOutput>)
    ensures |outputs| == |events|
    ensures forall i :: 0 <= i < |events| ==> outputs[i] == ProcessInput(Some(events[i]))
  {
    seq(|events|, i requires 0 <= i < |events| => ProcessInput(Some(events[i])))
  }

  const HOME_STATE := State(map[], Transition(None, [BasicTranslation(None)], HOME_STATE_IDX), None)
  const HOME_METADATA := StateMetadata(None, SequenceBehavior.Default)
  const HOME_BUILD := Build([HOME_STATE], [HOME_METADATA])

  /** Replaying held-back events: the first is translated, the others are processed again. */
  function Replay(word: seq<InputEvent>): seq<StateMachineOutput> {
    if word == [] then [] else [BasicTranslation(Some(word[0]))] + ReplayAll(word[1..])
  }

  /** The fallback of a state reached after the events of `word`: a Default state replays what it held back. */
  function Fallback(behavior: SequenceBehavior, word: seq<InputEvent>): Transition {
    var replay := if behavior == SequenceBehavior.Default then Replay(word) else [];
    Transition(None, replay + [BasicTranslation(None)], HOME_STATE_IDX)
  }

  function Released(behavior: SequenceBehavior, event: InputEvent): seq<StateMachineOutput> {
    if behavior == SequenceBehavior.Release then [BasicTranslation(Some(event))] else []
  }

  /** The edge a sequence's last trigger takes. */
  function CompleteEdge(s: Sequence, event: InputEvent): Transition {
    Transition(None, Released(s.behavior, event) + EmitAll(s.binds), HOME_STATE_IDX)
  }

  /** The timer transition of a sequence that ends in a minimum wait. */
  function CompleteTimer(s: Sequence): Transition {
    Transition(None, EmitAll(s.binds), HOME_STATE_IDX)
  }

  const SILENT_FALLBACK := Transition(None, [], HOME_STATE_IDX)
}
