# The sequence-remapping engine, modelled and proved

A profile consists of layers. Each layer has basic remappings (one trigger, some binds) and sequence remappings: a word
of input events, possibly with minimum or maximum waits between them, that runs some binds when it is complete. While a
word is pending its events are swallowed (Capture), let through (Release), or held back and given back if the word comes
to nothing (Default).

The program compiles every layer to an automaton shaped like a trie (`common/src/state_machine.cpp`) and runs the
automata in a main loop with a timer, delayed outputs, pause, layer changes and profile swaps (`common/src/mapper.cpp`).
Keys reach it over a small locked queue (`common/src/key_channel.cpp`). Three things make it hard to see that this is
right: sequences share states, a failing Default word is replayed through the automaton and may start, finish or abandon
other sequences on the way, and any output may swap the layer under the replay.

The project states what the engine is for without any automaton: a *matcher* that keeps the pending word and scans the
lists the user wrote at every event (`Matching.dfy`). Its main results are

* **refinement**: over whole runs of keys, timeouts, layer changes, profile swaps, pauses and resumes, the mapper with
  its automata queues, sends, logs and drops exactly what the matcher does, if the sequences of each layer are compatible
  in the sense below (`Refinement.MapperRefinesMatcher`); and, for accepted profiles without waits, only if they are
  (`Agreement.AgreementExact`), as the Default sequences a and a b in this order show (`Agreement.PairDiffers`);
* **safety**: on every accepted profile, compatible or not, no operation and no run that ends ever leaves an index out of
  range, an armed timer unanswered or an output queued while paused (`Bounded.StepWithin`, `Bounded.RunWithin`);
* **termination**: a call ends if and only if it ends within as many levels of nesting as there are combinations of a
  layer, a state and a replayed event (`Termination.EndsExactly`); on sound profiles every call ends
  (`Termination.SoundEnds`), one key causes at most p * p / 4 + 1 calls when p events are held back, nested at most
  p / 2 + 1 deep (`Replaying.OneKeyCalls`, `Bounded.NestingBound`), and for every p some accepted profile needs that many
  (`WorstCase.BoundAttained`); on an accepted profile of one layer without layer swaps they do not end
  (`Divergence.ReplayDiverges`);
* **acceptance**: which layers compile, exactly (`Acceptance.CompiledRepresents`, `Acceptance.ExactAcceptance`), for which
  the order of the sequences does not matter, exactly (`Acceptance.EveryOrderAccepted`), and what the automaton then looks
  like (`Structure.MinimalTrie`, `Structure.SequenceSurvives`); where words are prefix-free and waits need not agree, exactly
  which differing waits are refused (`Disagreements.WaitsDecide`, `Disagreements.PairRefused`);
* **outputs**: over every run on accepted profiles, which entries stand behind each note in the history, read off the profile as
  the user wrote it: a remapping's presses, releases and scripts with the waits before them, or the key itself, or one sequence
  bind without delay (`Chronicle.RunTold`, `Chronicle.RunFollowsUp`); what a key shows in the middle of any run, by the
  behaviour of the sequences that read it (`Shown.KeyShows`); and on layers without sequences that the daemon gets just what
  the keys ask for, in order (`Keyboard.PlainRunTypes`, `Keyboard.BlankHandsOn`);
* **accounts**: every key that was ever sent is in the channel, pending, or settled exactly once, and the mapper's history
  is that account with each completed sequence replaced by its binds (`EndToEnd.EveryKeyAccounted`); on every accepted
  profile every output ever queued is in the queue, was flushed no earlier than due, or was dropped by a pause
  (`OutputLedger.RunBalanced`); together, for sound profiles, the lists alone determine what the daemon gets
  (`EndToEnd.DaemonGets`); and no key is kept back: as many turns as keys queued give them all to the mapper
  (`EndToEnd.EveryKeyArrives`);
* **order**: no key overtakes events held before it, in any run, if no Default sequence is longer than two events
  (`Overtaking.ShortNeverOvertakes`), and without waits only then (`Overtaking.OvertakingExact` on the mapper's log,
  `Order.OrderExact` on the account); Release sequences are transparent (`Transparency.ReleaseTransparent`); and exactly
  when a flush sends outputs in the order they were queued (`OutputQueue.FlushOrder`, `OutputQueue.SeveralFlushes`);
* **time**: a key that comes any number of turns after a wait began goes on with its word exactly when the clock of its
  turn is below the end of a maximum wait, or not below the end of a minimum wait (`Deadlines.MaximumWaitRun`,
  `Deadlines.MinimumWaitRun`).

## How the files build on each other

| file | modules | content |
|---|---|---|
| `Profiles.dfy` | `Options`, `Profiles` | profiles, triggers, binds, events; a sequence as nodes, each an event with the wait behind it |
| `Automata.dfy`, `StateMachine.dfy` | same | automata; the compiler as imperative methods and the function they are proved to compute |
| `TreeShape.dfy` | same | the construction is a tree and overwrites nothing, for every normal-form layer |
| `Trie.dfy` | same | the invariant: every state stands for one prefix of some trigger word |
| `Acceptance.dfy`, `Structure.dfy` | same | which layers compile; the finished automaton |
| `Disagreements.dfy` | same | which layers compile when waits differ; a second, simpler invariant: states stand for ways |
| `Trails.dfy` | same | where words lead in any accepted untimed layer, also when a word slides back onto HOME |
| `Outputs.dfy`, `MapperModel.dfy` | same | the interpreter as functions on values, with its termination measure |
| `Replaying.dfy` | same | why replays end on compatible layers, and how many there are |
| `OutputQueue.dfy` | same | scheduling and the two-pointer partition |
| `SwapTargets.dfy`, `Profiling.dfy` | same | layer swaps in automata come from binds; compiling a whole profile |
| `MapperRuns.dfy` | same | the mapper as a system of steps, where replays are sure to end |
| `Bounded.dfy` | same | the same system on any accepted profile: calls are given up beyond a depth; the invariant of all operations |
| `Termination.dfy`, `Divergence.dfy` | same | exactly which calls end, and a profile on which they do not |
| `OutputLedger.dfy` | same | the output ledger, pausing and profile swaps, on any accepted profile |
| `Effects.dfy`, `Chronicle.dfy` | same | bind lists and remappings read from the front; the history of a run explained by them |
| `Keyboard.dfy` | same | layers without sequences: what the daemon gets |
| `Mapper.dfy` | `Mapping` | the mapper as a class whose methods update its fields, proved to take exactly those steps |
| `Channel.dfy` | same | the key queue as interleaved locked regions, and its classes |
| `Matching.dfy`, `Refinement.dfy` | same | the reference matcher; the mapper refines it |
| `Conservation.dfy`, `Histories.dfy`, `Order.dfy` | same | accounts of events, rendered output, order |
| `Shown.dfy` | same | what one event makes the mapper translate and run, by behaviour |
| `Growth.dfy`, `Timing.dfy`, `Deadlines.dfy` | same | the matcher's log and clock only grow; waits in one turn and over whole runs |
| `Transparency.dfy`, `EndToEnd.dfy` | same | Release sequences; everything put together |
| `Overtaking.dfy`, `Agreement.dfy` | same | order on the mapper's own log; exactly which profiles the mapper runs as the matcher does |
| `WorstCase.dfy` | same | profiles on which one key causes as many calls as the bound allows |

## Terms

* *Normal form*: no sequence starts with a wait and no two waits are side by side. The compiler needs this
  (`common/src/state_machine.cpp:170` reads the trigger as an input event).
* *Clashing*: two sequences of a layer start with the same event and either behave differently or one trigger word is a
  prefix of the other. Can be read off the profile.
* *Compatible* (`Trie.Compatible`): timers agree where words do, a word nested in another does not end in a wait, and a
  Default word does not go on from where an earlier word is complete. Prefix-free words whose timers agree are compatible.
  A profile is *sound* when it is in normal form, names only layers that exist, and each layer's sequences are compatible.
* *Way*: the events of a sequence so far, with the minimum waits sat out between them. Two sequences *meet* where their ways are
  the same. Without minimum waits a way is a beginning of the trigger word.
* *Held*: the events a state would give back, that is, the pending word of a Default sequence.

## Model

| member | source | states |
|---|---|---|
| StateMachine.NormalizeSequences | common/src/state_machine.cpp:36-108 | the normalising pass copies every sequence as it stands (its loop variable is const, so the merging arms are never chosen) |
| StateMachine.AlignedStep | common/src/state_machine.cpp:155-186 | one pass of the trigger loop consumes exactly one input trigger and the wait behind it, and ends the sequence exactly when they do |
| StateMachine.SynthesizeFallback | common/src/state_machine.cpp:235-259 | a new state's fallback replays, for Default, the input events of triggers 0 to i: first one translated, others processed again, then the current event |
| StateMachine.HangTimer | common/src/state_machine.cpp:268-316 | how a wait is hung on the state before it: fallback copied, binds run, or a further state, and never over a timer transition that is there |
| StateMachine.PushState | common/src/state_machine.cpp:220-265 | a new state with its fallback, and the edge to it from the current state, and nothing else |
| StateMachine.InsertTrigger | common/src/state_machine.cpp:155-317 | one pass of the loop equals one insertion step on parsed nodes, refusals included; which steps are refused for their wait is Disagreements.RefusedExactly |
| StateMachine.InsertSequence | common/src/state_machine.cpp:151-318 | inserting a sequence trigger by trigger equals inserting its nodes one after the other, up to the first refusal |
| StateMachine.GenerateStates | common/src/state_machine.cpp:134-321 | the imperative compiler computes the specification `Compile` of the parsed layer, for every normal-form layer; what is accepted and refused is stated without it in Acceptance and, where waits differ, in Disagreements |
| Profiles.NodesSpell | common/src/state_machine.cpp:109-129 | reading triggers as events with waits behind them loses nothing: written out again they are the same triggers, a press a press and a release a release |
| Profiles.ParsedAsWritten | common/src/state_machine.cpp:151-170 | so a parsed sequence is the one written, with its behaviour and its binds |
| StateMachine.CompileFails | common/src/state_machine.cpp:192-214 | once refused, a layer stays refused whatever follows |
| TreeShape.InsertNodeTree | common/src/state_machine.cpp:189-308 | one insertion step keeps the tree shape and changes no edge, fallback, metadata or existing timer transition |
| TreeShape.InsertNodeAnswered | common/src/state_machine.cpp:220-308 | after each step every edge that arms a timer leads to a state with a timer transition, and only edges arm timers |
| TreeShape.ConstructionTree | common/src/state_machine.cpp:136-308 | in the middle of any sequence of any normal-form layer, clashing or not, the states form a tree, metadata has the same length and the current state is in range |
| TreeShape.CompiledTree | common/src/state_machine.cpp:151-308 | the same between sequences: one incoming edge or timer transition per state other than HOME, from a smaller index |
| TreeShape.CompilationExtends | common/src/state_machine.cpp:196-310 | later sequences never overwrite what earlier ones built |
| TreeShape.Reachable | common/src/state_machine.cpp:260-308 | every state is reached from HOME over edges and timer transitions |
| Trie.EdgeFound | common/src/state_machine.cpp:189 | the next event already has an edge whenever a sequence sharing the word so far is in |
| Trie.CompleteStep | common/src/state_machine.cpp:225-265 | a last trigger on a new word adds exactly the completing edge |
| Trie.RefusedAtHome | common/src/state_machine.cpp:189-214 | among compatible sequences no step follows an edge that leads home |
| Trie.EdgeOwner | common/src/state_machine.cpp:196-216 | a shared edge leads to a state some earlier sequence with the same word and the same timer created |
| Trie.SharedStep | common/src/state_machine.cpp:196-216 | following an existing edge of compatible sequences changes nothing |
| Trie.NewStateStep | common/src/state_machine.cpp:217-293 | a new trigger creates exactly one state, standing for the longer word |
| Trie.NewWaitStep | common/src/state_machine.cpp:295-308 | a minimum wait in the middle creates a second state for the same word, reached by the timer only |
| Trie.InsertStep | common/src/state_machine.cpp:155-317 | every insertion step keeps the invariant that states stand one-to-one for prefixes |
| Acceptance.RefusedClashes | common/src/state_machine.cpp:192-214 | a step is refused only because of an earlier sequence that clashes |
| Acceptance.ClashRefused | common/src/state_machine.cpp:192-214 | where an earlier sequence clashes, the step at which it shows is refused |
| Acceptance.CompiledRepresents | common/src/state_machine.cpp:151-320 | compatible sequences compile if and only if no two of them clash, and the automaton represents all of them |
| Acceptance.PrefixFreeAcceptance | common/src/state_machine.cpp:189-216 | prefix-free layers with agreeing timers, of any behaviour: accepted if and only if sequences that start alike behave alike |
| Acceptance.ExactAcceptance | common/src/state_machine.cpp:189-216 | untimed layers of Capture and Release sequences: accepted if and only if words are prefix-free and sequences that start alike behave alike |
| Acceptance.AcceptanceIgnoresOrder | common/src/state_machine.cpp:189-216 | for untimed layers of Capture and Release sequences, and for prefix-free layers of any behaviour and with any waits, acceptance does not depend on the order of the sequences |
| Acceptance.NestedRefused | common/src/state_machine.cpp:189-216 | where one word begins with another, whatever their behaviours, some order of the same sequences is refused: the longer one first |
| Acceptance.EveryOrderAccepted | common/src/state_machine.cpp:151-320 | for layers whose timers agree where words do and no word that another begins with ends in a wait, of any behaviour: every order of the sequences is accepted if and only if no word begins with another and sequences that start alike behave alike |
| Acceptance.OrderMattersExactly | common/src/state_machine.cpp:151-320 | if such a layer is accepted, all its orders are if and only if no word begins with another |
| Acceptance.UntimedRegular | common/src/state_machine.cpp:151-320 | all layers without waits are such layers |
| Acceptance.DefaultOrderMatters | common/src/state_machine.cpp:26-29 | an example: HOME counts as Default, so of two Default sequences the longer word after the shorter one is accepted, its second event completing it on HOME, and the other order is refused |
| Disagreements.MeetExactly | common/src/state_machine.cpp:189-316 | two sequences come to the same place exactly where their words agree and the waits between are minimum waits in both or in neither |
| Disagreements.RefusedExactly | common/src/state_machine.cpp:189-216 | in a prefix-free layer whose sequences behave alike where they start alike, a step is refused exactly if its wait differs from that of the first sequence that came to the same place, both being there |
| Disagreements.Step | common/src/state_machine.cpp:155-317 | every insertion step keeps the invariant that states, edges and timer transitions stand for the ways of the sequences inserted, whatever waits they mix |
| Disagreements.WaitsDecide | common/src/state_machine.cpp:151-320 | hence such layers, if no maximum wait cuts a minimum wait short, are refused if and only if some sequence has a wait behind an event that differs from the wait of the first sequence on the same way, both being there |
| Disagreements.PairRefused | common/src/state_machine.cpp:210-214 | two sequences that behave alike, neither word beginning with the other, are refused together if and only if behind an event on their common way both wait, and not alike; a wait against none is not refused |
| Disagreements.WordsDecide | common/src/state_machine.cpp:151-320 | where sequences with a common word make the same minimum waits on it, the trigger words alone decide |
| Disagreements.WordsMayMislead | common/src/state_machine.cpp:294-308 | without that they do not: two different waits behind the same word are accepted if only one of the sequences makes a minimum wait before |
| Disagreements.CutShortMisleads | common/src/state_machine.cpp:270-284 | and a layer in which a maximum wait cuts a minimum wait short may be refused though no waits differ, since the rest of the sequence is inserted from HOME |
| Structure.MinimalTrie | common/src/state_machine.cpp:235-308 | states are one-to-one HOME, the pending prefixes, and those with a minimum wait run out; each falls back as its own word asks |
| Structure.SequenceEdge | common/src/state_machine.cpp:216-265 | each event of each sequence has its edge, which completes exactly that sequence or enters the next prefix |
| Structure.SequenceApproach | common/src/state_machine.cpp:216-283 | following a sequence's own events and minimum waits from HOME leads to where it waits for its next event |
| Structure.SequenceEntered | common/src/state_machine.cpp:196-308 | the state entered is described by every sequence that passes through it, not only by the one that created it |
| Structure.SequenceSurvives | common/src/state_machine.cpp:216-310 | every sequence's last edge or timer transition is there in the end and runs exactly its binds, after the last event itself for Release; a final maximum wait is a fallback |
| Trails.WordLeadsHome | common/src/state_machine.cpp:151-317 | in any accepted untimed layer, compatible or not, the events of every sequence lead from HOME back to HOME |
| Trails.Collapses | common/src/state_machine.cpp:189-231 | in such a layer, if a Default sequence goes on from where an earlier one is complete, the events after its last visit to HOME run its binds by themselves, silently until the last one, although no sequence ends anywhere along them and all that begin with them are Default |
| Replaying.FallbackEvents | common/src/state_machine.cpp:242-259 | what a fallback holds and what it replays, for each behaviour |
| Replaying.StateHolds | common/src/state_machine.cpp:242-259 | a state holds the whole word for Default and nothing otherwise, and replays fewer events than it holds |
| Replaying.FinishedReplayable | common/src/state_machine.cpp:216-310 | in an accepted compatible layer no transition can keep a replay going: edges take up one event and replay none |
| MapperModel.RunOutputs | common/src/mapper.cpp:165-193 | direct outputs keep layer and state in range and either stay where they are or swap to HOME of some layer with no timer |
| MapperModel.ChosenFits | common/src/mapper.cpp:217-222 | whichever transition an event takes, it can be applied, replays fewer events than are held, and takes up at most one |
| MapperModel.Apply | common/src/mapper.cpp:157-198 | applying a transition ends, keeps the invariant, and leaves no more held than was to be replayed |
| MapperModel.Process | common/src/mapper.cpp:200-223 | processing an event ends, keeps the invariant, and leaves at most one more event held than before, whatever is replayed and swapped in between |
| MapperModel.ProcessAll | common/src/mapper.cpp:195-197 | the redo loop ends and leaves at most as many more held as it was given |
| Replaying.ProcessShape | common/src/mapper.cpp:157-223 | one call applies one transition and then replays, from HOME, strictly fewer events than were held |
| Replaying.ProcessCalls | common/src/mapper.cpp:157-223 | the amortised bound: calls made now plus the worst still possible in k more events, against the worst possible in k + 1 |
| Replaying.OneKeyCalls | common/src/mapper.cpp:157-223 | with p events held, one key causes at most p * p / 4 + 1 calls, in whatever state it comes |
| WorstCase.BoundAttained | common/src/mapper.cpp:157-223 | for every p there is a sound, accepted profile on which, after p keys processed one after the other, p events are held and one further key causes exactly p * p / 4 + 1 calls |
| WorstCase.Fails | common/src/mapper.cpp:157-223 | on it, a link that fails is given back and runs through the next link, which fails at the last of the replayed keys |
| Bounded.NestingBound | common/src/mapper.cpp:157-223 | with p events held, calls nest at most p / 2 + 1 deep: an interpreter that gives up below that depth computes the same |
| Termination.Control | common/src/mapper.cpp:157-223 | on any accepted profile, whether a call ends, and in which layer and state, depends on layer, state and event alone, not on clock, queue or history |
| Termination.EndsExactly | common/src/mapper.cpp:157-223 | on any accepted profile, a call ends if and only if it ends within as many levels as there are calls: a layer, a state, and an event that is this one or is replayed somewhere in the profile |
| Termination.RunnableEnds | common/src/mapper.cpp:157-223 | where every replay is of fewer events than are held, every call in every state ends |
| Termination.SoundEnds | common/src/mapper.cpp:157-223 | so it does on every accepted profile with compatible sequences |
| Divergence.LoopCompiles | common/src/state_machine.cpp:189-216 | a profile of one layer, without layer swaps or basic remappings, that is well formed and accepted though its sequences are not compatible |
| Divergence.ReplayDiverges | common/src/mapper.cpp:157-223 | on it, after one key, no depth of nesting is enough to process a second one, and the condition of `Termination.EndsExactly` fails |
| Effects.BindQueued | common/src/mapper.cpp:95-120 | bind number i of a list that runs has its entry behind what was queued, at the place the outputs before it leave: a press for PressKey, a release for ReleaseKey, the script for RunScript, due at a reading of its own plus the sum of the waits at smaller indices |
| Effects.OnlyBindsQueued | common/src/mapper.cpp:95-120 | nothing else is queued or moved: layer swaps and waits add no entry |
| Effects.BindsAsk | common/src/mapper.cpp:95-120 | the whole effect of a bind list is that of reading it from the front, each output after the waits passed so far |
| Effects.BindsMove | common/src/mapper.cpp:109 | and the layer after it is that of reading the swaps from the front |
| Effects.LayerOfLastSwap | common/src/mapper.cpp:109 | which is the layer of the swap with the greatest index, or the same layer without one |
| Effects.BasicsWritten | common/src/mapper.cpp:49-58 | in an accepted profile an event finds the binds of the remapping whose trigger waits for it, a press for KeyPress and a release for KeyRelease, and nothing if there is none |
| Effects.DeliverAsks | common/src/mapper.cpp:175-188 | translating an event queues what the current layer as written asks for, and nothing else |
| Effects.UnmappedPasses | common/src/mapper.cpp:183-187 | where no remapping of the layer waits for it, a key adds exactly one entry, itself, due at the reading, and an application event none |
| Effects.MappedRuns | common/src/mapper.cpp:179-182 | where remapping number j waits for it, the outputs of its binds are added, and the layer is that of its last swap |
| Effects.EmitAsks | common/src/mapper.cpp:190 | a sequence bind queues its own output, with no delay, or swaps the layer, or does nothing if it is a wait |
| Chronicle.RunTold | common/src/mapper.cpp:122-269 | in every run on accepted profiles the history is an account of notes and moves in which behind each note stand exactly the entries that the current layer as written asks for, due at readings made then |
| Chronicle.RunFollowsUp | common/src/mapper.cpp:157-193 | over every such run, behind each note of a sequence bind comes exactly one entry, its press, release or script, due at a reading made in that run with no delay, and none behind a layer swap or a wait |
| Keyboard.KeyTyped | common/src/mapper.cpp:122-249 | on layers without sequences whose remappings do not wait, the turn of a key sends exactly what the layer as written asks for and leaves nothing queued |
| Keyboard.PlainRunTypes | common/src/mapper.cpp:122-249 | so over every run of keys, timeouts and layer changes: the daemon gets, event by event and in order, what the keys ask for in the layers they come in |
| Keyboard.BlankHandsOn | common/src/mapper.cpp:122-249 | on a profile with nothing in it the daemon gets exactly the keys, in order |
| Keyboard.ReleaseAnswered | common/src/mapper.cpp:15-30 | a remapping of a release answers the release of its key and lets the press through |
| OutputQueue.BindsScheduled | common/src/mapper.cpp:95-120 | output number i of a bind list is due at its own clock reading plus the waits before it, queued behind what was there |
| OutputQueue.DueTimesGrow | common/src/mapper.cpp:95-120 | along one bind list due times never decrease, if the clock does not |
| OutputQueue.PartitionSplits | common/src/mapper.cpp:230-234 | the partition rearranges, and puts exactly the entries that are not due in front |
| OutputQueue.PartitionKeeps | common/src/mapper.cpp:230-234 | when nothing is due, or everything is, nothing moves |
| OutputQueue.PartitionMirrors | common/src/mapper.cpp:230-234 | when the due entries are in front, the partition exchanges the two ends from the outside in, until the due or the other entries are used up |
| OutputQueue.MirrorAt | common/src/mapper.cpp:230-234 | these exchanges mirror the entries at the middle and leave the others where they are |
| OutputQueue.FlushExact | common/src/mapper.cpp:225-249 | a flush sends what is due and only that, keeps the rest, and loses nothing |
| OutputQueue.BindsSentInOrder | common/src/mapper.cpp:95-249 | a bind list queued behind whatever is there, and flushed once all of the queue is due, is sent behind it, in the order written |
| OutputQueue.FlushOrder | common/src/mapper.cpp:225-249 | a flush of a queue of different entries sorted by due time sends the due ones in order if and only if there is at most one or nothing else, and keeps the others in order if and only if there is at most one or none is due |
| OutputQueue.BindsFlushOrder | common/src/mapper.cpp:95-249 | so for a bind list on an empty queue, at whatever time it is flushed |
| OutputQueue.SeveralFlushes | common/src/mapper.cpp:225-249 | over any number of flushes of any queue, outputs go out by due time if and only if each flush sends its share by due time; what is kept is always due later than all that was sent |
| Profiling.BasicMapExact | common/src/mapper.cpp:50-58 | each remapping is found under its own trigger, nothing else is, and the map is refused exactly when a trigger comes twice |
| Profiling.ProfileRejected | common/src/mapper.cpp:49-66 | a profile is refused exactly when some layer repeats a basic trigger or has sequences that do not compile |
| SwapTargets.CompileBelow | common/src/state_machine.cpp:227-293 | every layer swap in a compiled layer, compatible or not, is to a layer its sequences name |
| Profiling.CompiledFits | common/src/mapper.cpp:44-73 | for every accepted profile all targets are in range, every edge that arms a timer leads to a state with a timer transition, and every swap is to a layer that exists |
| Profiling.SoundAdmissible | common/src/mapper.cpp:44-73 | a sound profile that compiles can be run: replays end, timers are answered, layer swaps stay in range |
| MapperRuns.TickApplies | common/src/mapper.cpp:129-133 | an armed timer always finds a timer transition, and fires it exactly when the reading has reached it |
| Bounded.ProcessWithin | common/src/mapper.cpp:200-223 | on every accepted profile: processing an event, whatever it replays and swaps, keeps layer and state in range and armed timers answered, if it ends |
| Bounded.StepWithin | common/src/mapper.cpp:75-269 | on every accepted profile every operation that ends keeps the invariant: indices in range, an armed timer is answered, paused means no timer and an empty queue, automata are those of the profile; and all but a turn of the main loop do end |
| Bounded.RunWithin | common/src/mapper.cpp:122-269 | so does every run that ends, through swaps to any accepted profiles |
| Bounded.RunBound | common/src/mapper.cpp:122-269 | where replays end, every run ends, in the state the unbounded mapper says |
| OutputLedger.RunBalanced | common/src/mapper.cpp:95-260 | after every run that ends, on whatever accepted profiles, what was queued is, as a bag, what is queued, what was flushed and what pauses dropped, and nothing was flushed before it was due |
| OutputLedger.PausedForwards | common/src/mapper.cpp:200-215 | on whatever accepted profiles: over any paused interval the daemon gets exactly the dequeued key events, in order, and nothing is translated |
| OutputLedger.PausedStays | common/src/mapper.cpp:200-269 | while paused layer, state and automata change only by a layer or profile change |
| OutputLedger.ProfileSwap | common/src/mapper.cpp:44-73 | for every normal-form profile and in any state: a refused profile changes nothing; an accepted one installs each layer's own compilation and goes to HOME of its default layer with no timer |
| Refinement.StateByScan | common/src/state_machine.cpp:235-308 | whatever sequence a scan finds for a state's word describes that state |
| Refinement.EdgeByScan | common/src/state_machine.cpp:189-265 | unless a minimum wait is on, a state has an edge on an event exactly when a scan finds a sequence for the longer word, and it is that sequence's |
| Refinement.SimAdvance | common/src/mapper.cpp:157-222 | an event that goes on with a sequence: automaton and matcher stay in step |
| Refinement.SimAbandon | common/src/mapper.cpp:157-198 | a word that comes to nothing: they stay in step, through all replays |
| Refinement.SimExpire | common/src/mapper.cpp:129-133 | a timer that has run out: they stay in step |
| Refinement.AcceptableCompiles | common/src/mapper.cpp:44-73 | a sound profile is accepted exactly when no basic trigger comes twice and no two sequences clash |
| Refinement.SimStep | common/src/mapper.cpp:44-269 | every operation keeps mapper and matcher in step |
| Refinement.MapperRefinesMatcher | common/src/mapper.cpp:122-269 | from a fresh start, over every run, outputs, layer, timer and profile are the same as the matcher's |
| Shown.AdvanceShows | common/src/state_machine.cpp:217-265 | an event that the first sequence with this word goes on with shows itself if the sequence is Release and nothing otherwise, and then, if it is the last one, the binds |
| Shown.FailureShows | common/src/mapper.cpp:157-222 | an event that fails a Capture or Release word, or no word, passes alone; behind a minimum wait that has run out it is lost |
| Shown.GivingBackShows | common/src/state_machine.cpp:242-259 | an event that fails a Default word passes behind the first event held, and the other events held then come anew |
| Shown.MinimumShows | common/src/state_machine.cpp:279-310 | a minimum wait that runs out runs the binds if it ends the sequence, and otherwise shows nothing and lets the word go on |
| Shown.MaximumShows | common/src/state_machine.cpp:273-277 | a maximum wait that runs out lets the word come to nothing: a Capture or Release word shows nothing |
| Shown.MaximumGivesBack | common/src/state_machine.cpp:273-277 | and a Default word gives back its first event, the others coming anew |
| Shown.KeyShows | common/src/mapper.cpp:122-222 | after any run of a sound profile the turn of a key adds to the mapper's history just that, by the behaviour of the sequence that reads the pending word; where a Default word fails, its first event and the key come first and what its other events show behind them |
| Agreement.MapperShows | common/src/mapper.cpp:122-198 | on the events of a silent path, in any accepted profile, the mapper shows the binds at its end and nothing else |
| Agreement.MatcherShows | common/src/mapper.cpp:122-198 | on events along which no sequence ends, the lists call for nothing or for some event to be translated |
| Agreement.MapperPasses | common/src/mapper.cpp:122-198 | on the events of a silent path without binds and a key that no sequence mentions, the mapper translates that key and nothing else |
| Agreement.MatcherGivesBack | common/src/mapper.cpp:122-198 | where all of a Default word is pending, the lists call for its first event to be translated first |
| Agreement.IncompatibleDiffer | common/src/mapper.cpp:122-198 | in an accepted untimed layer with incompatible sequences there are keys that the mapper answers otherwise than the lists call for |
| Agreement.AgreementExact | common/src/mapper.cpp:122-269 | for accepted profiles without waits: every run of keys and layer changes ends with the matcher's outputs if and only if the sequences of every layer are compatible |
| Agreement.PairDiffers | common/src/state_machine.cpp:26-29 | with the Default sequences a and a b in this order, the key b alone makes the mapper run the binds of a b, where the lists call for the key to be translated |
| Conservation.EventSettlesBag | common/src/mapper.cpp:157-223 | one event more is settled or pending afterwards, whatever it finishes, abandons or starts |
| Conservation.RunSettlesBag | common/src/mapper.cpp:122-269 | over every run settled and pending events are, as a bag, the inputs |
| Histories.RunRendered | common/src/mapper.cpp:165-193 | the visible history is the account with each completed sequence replaced by its binds |
| Histories.RunLosesNothing | common/src/state_machine.cpp:242-259 | with only Default and Release sequences and no minimum waits nothing is dropped |
| Order.RunInOrder | common/src/mapper.cpp:165-197 | with Default sequences of at most two events, settled and pending events are the inputs in their order |
| Order.LongDefaultDisorders | common/src/mapper.cpp:165-197 | any longer untimed Default sequence has a run after which the matcher's account is out of order |
| Order.OrderExact | common/src/mapper.cpp:165-197 | hence, for acceptable untimed profiles, the account keeps the order in all runs of keys and layer changes if and only if no Default sequence is longer than two events |
| Overtaking.ShortTurn | common/src/mapper.cpp:125-198 | on the mapper, with short Default sequences, waits or not, the turn of a key translates a beginning of what was held, followed by the key; where a minimum wait runs out in this turn, what was held is used up or lost and does not come out |
| Overtaking.ShortNeverOvertakes | common/src/mapper.cpp:125-198 | so in every run of keys, timeouts and layer changes of such a profile |
| Overtaking.LongOvertakes | common/src/mapper.cpp:165-197 | for any longer one there is a run of keys a, b after which the mapper holds both and has translated neither, and a key e whose turn translates a and e first |
| Overtaking.OvertakingExact | common/src/mapper.cpp:125-198 | hence, for acceptable untimed profiles, on the mapper's own log: no key overtakes held events in any run of keys and layer changes if and only if no Default sequence is longer than two events |
| Transparency.CompileRelease | common/src/state_machine.cpp:220-259 | an accepted layer of Release sequences without minimum waits, nested or not, only has transitions that translate the event and then run binds |
| Transparency.ReleaseProfile | common/src/mapper.cpp:44-73 | an accepted profile of such layers can be run, whether or not its sequences are compatible |
| Transparency.ReleaseTransparent | common/src/mapper.cpp:122-198 | in every run of keys and timeouts the events translated are the inputs, in order |
| Timing.TimerArmed | common/src/mapper.cpp:159-163 | an event with a wait behind it arms the timer at the reading made on entering the state plus the wait; only a layer swap cancels it |
| Timing.MaximumWaitDecides | common/src/mapper.cpp:129-146 | one turn, on the automaton: after a maximum wait an event that goes on with the word finds its edge exactly when the turn's reading is below the armed time; otherwise the state's own fallback was taken, with no current event |
| Timing.MinimumWaitDecides | common/src/mapper.cpp:129-146 | one turn, on the automaton: after a minimum wait it finds its edge exactly when the reading is at or above it, and before that the state has no edges |
| Timing.FinalWaitFires | common/src/mapper.cpp:129-133 | a sequence that ends in a minimum wait runs its binds once a turn finds the wait over, with no event |
| Deadlines.MaximumWaitRun | common/src/mapper.cpp:122-198 | from the turn in which a maximum wait begins, over any number of turns without a key: the turn that brings the next event takes it up as the next of the word if and only if the clock it reads is below the reading at which the wait began plus the wait; otherwise no longer word is pending after it |
| Deadlines.MinimumWaitRun | common/src/mapper.cpp:122-198 | the same for a minimum wait: if and only if that clock is at or above it |
| Deadlines.FinalWaitRun | common/src/mapper.cpp:122-133 | a sequence that ends in a minimum wait runs once, at the first turn whose clock finds the wait over, and until then stays pending |
| Deadlines.TakenUp | common/src/mapper.cpp:157-198 | an event that is taken up completes its sequence, which runs, or leaves the longer word pending |
| Deadlines.StandsIfInTime | common/src/mapper.cpp:129-146 | after that turn the automaton is in the state of the longer word if and only if the event was in time |
| Mapping.Mapper.constructor | common/src/mapper.cpp:34-42 | a new mapper is at HOME of the default layer with the profile compiled; if it does not compile, it has no automata and no maps |
| Mapping.Mapper.QueueOutput | common/src/mapper.cpp:117-120 | one entry is added at the end, due at the reading plus the delay |
| Mapping.Mapper.QueueBinds | common/src/mapper.cpp:95-115 | the loop adds to the queue, bind by bind, the press, release or script at the reading plus the waits before it, and ends in the layer of its last swap |
| Mapping.Mapper.SetLayerInner | common/src/mapper.cpp:85-93 | HOME of the given layer, no timer, all else unchanged |
| Mapping.Mapper.Translate | common/src/mapper.cpp:175-188 | the outputs of the event's remapping are added if the current layer has one, otherwise exactly the key itself, due at the reading; an application event without one adds nothing |
| Mapping.Mapper.EmitOutput | common/src/mapper.cpp:190 | one sequence bind is queued on its own: its press, release or script due at the reading, or its layer swap, or nothing |
| Chronicle.RunOutputsTold | common/src/mapper.cpp:165-193 | the direct outputs of a transition add to the history notes with exactly the entries the profile as written asks for behind them |
| Mapping.Mapper.RunDirectOutputs | common/src/mapper.cpp:165-193 | the loop over outputs computes the specification, of which Chronicle.RunOutputsTold says what it queues, and collects exactly the events to process again |
| Mapping.Mapper.EnterState | common/src/mapper.cpp:159-163 | the new state, and its timer armed or cleared |
| Mapping.Mapper.ApplyTransition | common/src/mapper.cpp:157-198 | on any accepted profile, a call that ends computes the specification of applying a transition, in mutual recursion with ProcessInput |
| Mapping.Mapper.RedoEach | common/src/mapper.cpp:195-197 | the redo loop processes the collected events one after the other |
| Mapping.Mapper.ProcessInput | common/src/mapper.cpp:200-223 | on any accepted profile, a call that ends computes the specification of processing an event, paused or not |
| Mapping.Mapper.PartitionQueue | common/src/mapper.cpp:228-234 | the in-place partition: a rearrangement with exactly the entries that are not due in front |
| Mapping.Mapper.CheckQueuedEvents | common/src/mapper.cpp:225-249 | the flush, which reads the clock only if something is queued |
| Mapping.Mapper.FireTimer | common/src/mapper.cpp:129-133 | an armed timer that has run out fires the current state's timer transition |
| Mapping.Mapper.Iterate | common/src/mapper.cpp:125-146 | on any accepted profile, one turn of the main loop that ends is one step of the system: timer, then key, then flush |
| Mapping.Mapper.SetLayer | common/src/mapper.cpp:75-82 | succeeds exactly for layers that exist and then moves to HOME of that layer |
| Mapping.Mapper.Pause | common/src/mapper.cpp:255-263 | paused, with the queue dropped and the timer cancelled |
| Mapping.Mapper.Resume | common/src/mapper.cpp:265-269 | no longer paused, all else unchanged |
| Mapping.Mapper.SetProfile | common/src/mapper.cpp:44-73 | for any well-formed profile: succeeds exactly when no layer repeats a trigger or fails to compile, and changes nothing otherwise |
| Mapping.BuildBasicMap | common/src/mapper.cpp:50-58 | the loop computes the specification of a basic map, refusal included |
| Mapping.CompileAll | common/src/mapper.cpp:45-66 | the loop over layers compiles all of them or reports that one failed |
| Channel.AlwaysFifo | common/src/key_channel.cpp:7-59 | however sends, waits and a close interleave, what was sent is what was received followed by what is queued |
| Channel.NothingAfterClose | common/src/key_channel.cpp:37-38 | after the close nothing is received, though keys may still be queued |
| Channel.CloseCloses | common/src/key_channel.cpp:53-59 | a close closes the channel and changes nothing else |
| Channel.NothingReceivedAfter | common/src/key_channel.cpp:37-59 | whatever actions follow a close, nothing is received after it |
| Channel.SendQueues | common/src/key_channel.cpp:7-17 | a send adds the key to the end of the queue |
| Channel.WaitTakesOldest | common/src/key_channel.cpp:37-45 | on an open channel with a key queued a wait, timed or not, can end, and takes the oldest key |
| Channel.TakesEnough | common/src/key_channel.cpp:22-46 | without a close every wait that ends takes a key, until all that were queued at the start are taken |
| Channel.QueueDrains | common/src/key_channel.cpp:22-46 | so as many ended waits as queued keys receive them all in order, and empty the queue if nothing was sent in between |
| Channel.ReceivesInOrder | common/src/key_channel.cpp:43-45 | the n-th key received is the n-th key sent |
| Channel.KeySender.SendKey | common/src/key_channel.cpp:7-17 | the key goes to the end of the queue, closed or not, and is always reported as used |
| Channel.KeyReceiver.WaitKey | common/src/key_channel.cpp:22-46 | the oldest key whenever one is queued on an open channel, and it leaves the queue; nothing when the channel is closed or the wait timed out with an empty queue |
| Channel.KeyReceiver.CloseChannel | common/src/key_channel.cpp:53-59 | the channel is closed and its queue is left as it is |
| Channel.CreateChannel | common/src/key_channel.cpp:48-51 | both ends share one fresh, open, empty queue |
| EndToEnd.MapperAccounts | common/src/mapper.cpp:122-269 | over every run the mapper's history is a rendered account that, with the pending word, holds every input exactly once |
| EndToEnd.EventConservation | common/src/mapper.cpp:157-223 | with only Default and Release sequences and no minimum waits, inputs are, as a bag, the events translated, the events completed Default sequences used up, and the events the current state holds |
| EndToEnd.MapperInOrder | common/src/mapper.cpp:157-198 | with short Default sequences and no pauses that account keeps the inputs in order |
| EndToEnd.DaemonGets | common/src/mapper.cpp:95-269 | so for sound profiles the lists determine all outputs: the notes of a run are the account rendered, behind each stand exactly the entries its layer as written asks for, and these are queued, sent no earlier than due, or dropped by a pause |
| EndToEnd.PipeInOrder | common/src/mapper.cpp:125-146 | with the channel in front: what was sent is what the mapper was given, in order, followed by what is queued |
| EndToEnd.TurnGivesKey | common/src/mapper.cpp:125-143 | a turn with a key queued on an open channel gives the mapper the oldest key; any other turn gives it none |
| EndToEnd.EveryKeyArrives | common/src/mapper.cpp:125-143 | unless the channel is closed, as many turns as keys are queued and the mapper has been given every key that was sent, in order |
| EndToEnd.EveryKeyAccounted | common/src/mapper.cpp:122-269 | every key ever sent is still queued, pending, or settled exactly once in the account the mapper's history renders |

## Where code and comments disagree

* `normailze_sequences` is meant to merge adjacent timers (comment at `common/src/state_machine.cpp:32-34`), but its
  visitor sees a const element, so only the generic arm at line 94 ever applies. The model copies, and asks for normal
  form where the compiler needs it.
* `next_state_idx` is read at `common/src/state_machine.cpp:268` although a last trigger on a new edge (227-232) leaves
  it unset, and `states.at` checks it, so that with an unlucky value the compiler throws. No result of a successful read is
  used there; the model skips the read, so every result about compiling takes the value to be benign.
* The state pushed after a minimum wait (297-306) has a fallback whose target was never written. Taking that fallback
  makes the target the current state, which `states.at` at `common/src/mapper.cpp:218` checks. The model takes it to be
  HOME with no outputs, like every other fallback target; every result about runs in which an event comes to nothing
  after a minimum wait has run out rests on that.

## Left out

- StateMachine.GenerateStates: layers in normal form only, here and in everything built on it; a leading wait makes `.value()` throw at common/src/state_machine.cpp:170, which is not modelled.
- Refinement.MapperRefinesMatcher: for sound profiles. Agreement.AgreementExact shows that without waits all others fail. With waits compatibility is not needed in every case: of two sequences that disagree on a maximum wait the earlier one's counts, for the automaton and for the lists, and behind a maximum wait of zero an odd edge is never reached; no exact condition is given there.
- Disagreements.WaitsDecide: for prefix-free layers whose sequences behave alike where they start alike, as the words are read; and only if no maximum wait cuts a minimum wait short, which Disagreements.CutShortMisleads shows cannot be left out. What such a wait leads to depends on what else starts at HOME, and no exact condition is given for it. Other layers are those of Acceptance.CompiledRepresents.
- Shown.KeyShows: the turn begins with the tick of the timer, whose own effect Shown.MinimumShows, Shown.MaximumShows and Shown.MaximumGivesBack give on the matcher, with which Refinement.SimTick keeps the mapper in step.
- Keyboard.PlainRunTypes: for remappings without waits; with waits outputs may still be queued at the end of a turn, and OutputQueue.SeveralFlushes says in which order they go out.
- Replaying.OneKeyCalls: for automata that can be run, which those of sound profiles are; which calls end on any other accepted profile is what Termination.EndsExactly decides. Release layers need no compatibility (Transparency.ReleaseProfile).
- Bounded.StepWithin, Bounded.RunWithin, OutputLedger.RunBalanced, OutputLedger.PausedForwards, OutputLedger.PausedStays: about calls that end. A call that does not end leaves no state to speak of.
- Order.OrderExact, Overtaking.OvertakingExact: the direction from order to short sequences is for untimed profiles and acceptable ones; with waits a long sequence need not ever hold two events, for instance behind a maximum wait of zero. Order.RunInOrder and Overtaking.ShortNeverOvertakes have no such restriction.
- Timing.TimerArmed, Timing.MaximumWaitDecides, Timing.MinimumWaitDecides, Timing.FinalWaitFires: single turns, about a mapper and a matcher in step (`Refinement.Sim`), which `Refinement.SimRun` shows they are after every run of a sound profile. Whole runs are Deadlines.MaximumWaitRun, Deadlines.MinimumWaitRun and Deadlines.FinalWaitRun.
- Deadlines.MaximumWaitRun, Deadlines.MinimumWaitRun, Deadlines.FinalWaitRun: the event that begins the wait swaps no layer, since a swap cancels the wait; between it and the next key there are turns of the main loop only.
- Conservation.RunSettlesBag: as a bag only; Order.LongDefaultDisorders shows that order is lost.
- Mapping.Mapper.PartitionQueue: `std::partition` promises no order. The model is the usual two-pointer algorithm, with the queue a sequence the method reassigns. Results about the order of sending (OutputQueue.BindsSentInOrder, OutputQueue.FlushOrder, OutputQueue.BindsFlushOrder) depend on that choice; the ledger does not.
- Mapping.Mapper.constructor: without a profile that compiles the program goes on and fails at its first lookup, which is not modelled; layers named by a profile are taken to exist, since common/src/mapper.cpp:70 and 109 do not check them.
- Mapping.Mapper.ProcessInput, Mapping.Mapper.ApplyTransition, Mapping.Mapper.Iterate: called only where the call ends; the ghost parameter `depth` says how deep it nests, and Termination.EndsExactly says which calls end.
- OutputQueue.FlushOrder, OutputQueue.BindsFlushOrder: for queues without two equal entries, since exchanging equal ones cannot be seen.
- Acceptance.EveryOrderAccepted, Acceptance.OrderMattersExactly: a word that ends in a wait and begins another may be accepted in both orders; such layers, and those whose timers disagree, are left to Acceptance.CompiledRepresents.
- Application names are compared exactly. The program's equality is a substring test in either direction (common/include/event.h:19-28), which is not transitive, so its hash maps have no well-defined content.
- Threads: each locked region is one step, and clock readings are values of a function of the number of readings made so far. Only the results that say so need that function not to decrease.
- Integers are unbounded: no overflow of times or indices.
- The daemon is a history of what was sent to it; scripts, devices and platform hooks are not modelled.
- The key counter, the count of processed events, the layer-changed callback, the logger, `stop`, interruption requests, `waiting_for_timer` and the length of the main loop's sleep: no effect on the modelled state.
- Reading profiles from JSON, settings, tray, indicator and local server.
