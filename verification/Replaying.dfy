/** Why replaying held-back events ends, and how much work one event can cause. */
module Replaying {
  import opened Options
  import opened Profiles
  import opened Automata
  import StateMachine
  import opened Trie
  import opened Acceptance
  import opened Structure
  import TreeShape
  import opened Outputs
  import opened MapperModel

  lemma {:induction false} CarriedAppend(a: seq<StateMachineOutput>, b: seq<StateMachineOutput>)
    ensures Carried(a + b) == Carried(a) + Carried(b)
  {
    if b == [] {
      assert a + b == a;
    } else {
      assert (a + b)[..|a + b| - 1] == a + b[..|b| - 1];
      CarriedAppend(a, b[..|b| - 1]);
    }
  }

  lemma {:induction false} RedoAppend(a: seq<StateMachineOutput>, b: seq<StateMachineOutput>, prev: Option<InputEvent>)
    ensures RedoEvents(a + b, prev) == RedoEvents(a, prev) + RedoEvents(b, prev)
  {
    if b == [] {
      assert a + b == a;
    } else {
      assert (a + b)[..|a + b| - 1] == a + b[..|b| - 1];
      RedoAppend(a, b[..|b| - 1], prev);
    }
  }

  lemma {:induction false} ReplayAllEvents(events: seq<InputEvent>, prev: Option<InputEvent>)
    ensures Carried(ReplayAll(events)) == events && RedoEvents(ReplayAll(events), prev) == events
  {
    if events != [] {
      var last := |events| - 1;
      assert ReplayAll(events)[..last] == ReplayAll(events[..last]);
      ReplayAllEvents(events[..last], prev);
    }
  }

  lemma OneEvent(event: Option<InputEvent>, prev: Option<InputEvent>)
    ensures Carried([BasicTranslation(event)]) == (if event.Some? then [event.value] else [])
    ensures RedoEvents([BasicTranslation(event)], prev) == []
  {
    var outputs: seq<StateMachineOutput> := [BasicTranslation(event)];
    assert outputs[..0] == [];
  }

  lemma ReplayEvents(word: seq<InputEvent>, prev: Option<InputEvent>)
    requires word != []
    ensures Carried(Replay(word)) == word && RedoEvents(Replay(word), prev) == word[1..]
  {
    var first: seq<StateMachineOutput> := [BasicTranslation(Some(word[0]))];
    OneEvent(Some(word[0]), prev);
    ReplayAllEvents(word[1..], prev);
    CarriedAppend(first, ReplayAll(word[1..]));
    RedoAppend(first, ReplayAll(word[1..]), prev);
  }

  /** What the synthesised fallback holds back and what it replays. */
  lemma FallbackEvents(behavior: SequenceBehavior, word: seq<InputEvent>, prev: Option<InputEvent>)
    requires word != []
    ensures var outputs := Fallback(behavior, word).outputs;
      && outputs != []
      && Carried(outputs) == (if behavior == SequenceBehavior.Default then word else [])
      && RedoEvents(outputs, prev) == (if behavior == SequenceBehavior.Default then word[1..] else [])
      && (behavior != SequenceBehavior.Default ==> NoReplay(outputs))
  {
    var none: seq<StateMachineOutput> := [BasicTranslation(None)];
    OneEvent(None, prev);
    if behavior == SequenceBehavior.Default {
      ReplayEvents(word, prev);
      CarriedAppend(Replay(word), none);
      RedoAppend(Replay(word), none, prev);
    } else {
      assert Fallback(behavior, word).outputs == none;
    }
  }

  lemma FallbackReplays(behavior: SequenceBehavior, word: seq<InputEvent>)
    requires word != []
    ensures Replays(Fallback(behavior, word), |Carried(Fallback(behavior, word).outputs)|)
  {
    forall prev
      ensures RedoEvents(Fallback(behavior, word).outputs, prev) ==
              (if behavior == SequenceBehavior.Default then word[1..] else [])
    {
      FallbackEvents(behavior, word, prev);
    }
    FallbackEvents(behavior, word, None);
  }

  /** What state `j` of a finished build holds back: the whole word for Default, nothing otherwise. */
  lemma StateHolds(b: Build, l: Labelling, seqs: seq<Sequence>, j: nat)
    requires Indexed(b, l) && 0 < j < |b.states| && StateOk(b, l, seqs, |seqs|, 0, j)
    ensures l.owner[j] < |seqs| && l.labels[j].word != []
    ensures Held(b.states, j) ==
      if seqs[l.owner[j]].behavior == SequenceBehavior.Default && !l.labels[j].waited then l.labels[j].word else []
    ensures (b.states[j].fallback.outputs != []) == !l.labels[j].waited
    ensures Replays(b.states[j].fallback, |Held(b.states, j)|)
    ensures b.states[j].timer.Some? ==> Replays(b.states[j].timer.value, |Held(b.states, j)|)
  {
    if !l.labels[j].waited {
      FallbackEvents(seqs[l.owner[j]].behavior, l.labels[j].word, None);
      FallbackReplays(seqs[l.owner[j]].behavior, l.labels[j].word);
    }
  }

  lemma EdgeReplaysNothing(b: Build, l: Labelling, seqs: seq<Sequence>, j: nat, e: InputEvent)
    requires Indexed(b, l) && j < |b.states| && e in b.states[j].edges && EdgeOk(b, l, seqs, |seqs|, 0, j, e)
    ensures NoReplay(b.states[j].edges[e].outputs)
  {
    var t, word := b.states[j].edges[e], l.labels[j].word + [e];
    if t.newState == HOME_STATE_IDX {
      var m: nat :| Completes(seqs, |seqs|, 0, m, word) && t == CompleteEdge(seqs[m], e);
      CompleteReplaysNothing(seqs[m], e);
    }
  }

  lemma CompleteReplaysNothing(s: Sequence, e: InputEvent)
    ensures NoReplay(CompleteEdge(s, e).outputs)
  {
  }

  /** An edge into a state of the trie takes up one more event than its source holds. */
  lemma EdgeTakesUp(b: Build, l: Labelling, seqs: seq<Sequence>, j: nat, e: InputEvent, t: nat)
    requires Finished(b, l, seqs) && CompatibleAll(seqs) && j < |b.states| && 0 < t < |b.states|
    requires l.labels[t] == Label(l.labels[j].word + [e], false)
    ensures b.states[t].fallback.outputs != []
    ensures b.states[j].fallback.outputs != [] ==> |Held(b.states, t)| <= |Held(b.states, j)| + 1
  {
    FinishedState(b, l, seqs, t);
    StateHolds(b, l, seqs, t);
    if 0 < j {
      FinishedState(b, l, seqs, j);
      StateHolds(b, l, seqs, j);
      SameBehavior(seqs, l.owner[j], l.owner[t], l.labels[j].word, e);
    }
  }

  lemma EdgeReplays(b: Build, l: Labelling, seqs: seq<Sequence>, j: nat, e: InputEvent)
    requires Finished(b, l, seqs) && CompatibleAll(seqs) && j < |b.states| && e in b.states[j].edges
    ensures b.states[j].edges[e].newState < |b.states| && EdgeHolds(b.states, j, b.states[j].edges[e])
  {
    var t := b.states[j].edges[e];
    FinishedEdge(b, l, seqs, j, e);
    EdgeReplaysNothing(b, l, seqs, j, e);
    if t.newState != HOME_STATE_IDX {
      EdgeTakesUp(b, l, seqs, j, e, t.newState);
    }
  }

  lemma SameBehavior(seqs: seq<Sequence>, o: nat, o': nat, word: seq<InputEvent>, e: InputEvent)
    requires ClashFree(seqs, |seqs|) && CompatibleAll(seqs) && o < |seqs| && o' < |seqs| && word != []
    requires word <= Word(seqs[o]) && word + [e] <= Word(seqs[o'])
    ensures seqs[o].behavior == seqs[o'].behavior
  {
    assert Word(seqs[o'])[..|word|] == word == Word(seqs[o])[..|word|];
    SharersAgree(seqs, o, o', |word|);
  }

  /** The automaton of a finished build can be run: replaying always ends. */
  lemma FinishedReplayable(b: Build, l: Labelling, seqs: seq<Sequence>)
    requires Finished(b, l, seqs) && CompatibleAll(seqs)
    ensures Replayable(b.states)
  {
    forall i | 0 <= i < |b.states|
      ensures Replays(b.states[i].fallback, |Held(b.states, i)|)
      ensures b.states[i].timer.Some? ==> Replays(b.states[i].timer.value, |Held(b.states, i)|)
    {
      if i > 0 {
        FinishedState(b, l, seqs, i);
        StateHolds(b, l, seqs, i);
      }
    }
    forall i, e | 0 <= i < |b.states| && e in b.states[i].edges
      ensures EdgeHolds(b.states, i, b.states[i].edges[e])
    {
      EdgeReplays(b, l, seqs, i, e);
    }
  }

  // ---------- how much one event can cause ----------

  /** A quarter of m * m, rounded down. */
  function Quarter(m: nat): nat {
    if m < 2 then 0 else Quarter(m - 2) + m - 1
  }

  lemma {:induction false} QuarterClosed(m: nat)
    ensures Quarter(m) == m * m / 4
  {
    if m >= 2 {
      QuarterClosed(m - 2);
      assert m * m == (m - 2) * (m - 2) + 4 * (m - 1);
    }
  }

  lemma {:induction false} QuarterGrows(m: nat, m': nat)
    requires m <= m'
    ensures Quarter(m) <= Quarter(m')
    decreases m'
  {
    if m' >= 2 && m < m' {
      QuarterGrows(m, m' - 1);
      QuarterStep(m' - 1);
    }
  }

  lemma {:induction false} QuarterStep(m: nat)
    ensures Quarter(m) <= Quarter(m + 1)
  {
    if m >= 2 {
      QuarterStep(m - 2);
    }
  }

  /** The most replays `n` events can cause, starting from `p` held: the last one makes all that is held by then fail. */
  function Worst(p: nat, n: nat): nat {
    if n == 0 then 0 else Quarter(p + n - 1)
  }

  lemma WorstAfterOne(p: nat, q: nat, k: nat)
    requires q <= p + 1
    ensures Worst(q, k) <= Worst(p, k + 1)
  {
    if k > 0 {
      QuarterGrows(q + k - 1, p + k);
    }
  }

  lemma WorstAfterReplay(p: nat, n: nat, k: nat)
    requires 0 < n < p
    ensures n + Worst(0, n + k) <= Worst(p, k + 1)
  {
    QuarterGrows(n + k - 1, p + k - 2);
  }

  lemma HomeHoldsNothing(cp: Compiled, c: Core)
    requires Ok(cp, c) && c.state == HOME_STATE_IDX
    ensures Holding(cp, c) && HeldBy(cp, c) == []
  {
    assert LayerRuns(cp, c.layer);
  }

  lemma ApplyShape(cp: Compiled, clock: Clock, c: Core, t: Transition, prev: Option<InputEvent>, c': Core)
    requires Ok(cp, c) && !c.paused
    requires t.newState < |cp.states[c.layer]| && OutputsBelow(t.outputs, |cp.states|)
    requires t.timerMs.Some? ==> cp.states[c.layer][t.newState].timer.Some?
    requires NoReplay(t.outputs) || t.newState == HOME_STATE_IDX
    requires c' == RunOutputs(cp, clock, Enter(clock, c, t), t.outputs, prev)
    ensures CoreOk(cp, c') && !c'.paused && c'.calls == c.calls
    ensures (c'.layer == c.layer && c'.state == t.newState) || c'.state == HOME_STATE_IDX
    ensures RedoEvents(t.outputs, prev) == [] ==> Apply(cp, clock, c, t, prev) == c'
    ensures RedoEvents(t.outputs, prev) != [] ==>
      Holding(cp, c') && HeldBy(cp, c') == [] &&
      Apply(cp, clock, c, t, prev) == ProcessAll(cp, clock, c', RedoEvents(t.outputs, prev))
  {
    if RedoEvents(t.outputs, prev) != [] {
      if NoReplay(t.outputs) {
        NoReplayNoRedo(t.outputs, prev);
      }
      HomeHoldsNothing(cp, c');
    }
  }

  lemma ProcessIsApply(cp: Compiled, clock: Clock, c: Core, e: InputEvent)
    requires Ok(cp, c) && !c.paused
    ensures var t := Chosen(cp, c, e);
      && t.newState < |cp.states[c.layer]| && OutputsBelow(t.outputs, |cp.states|)
      && (t.timerMs.Some? ==> cp.states[c.layer][t.newState].timer.Some?)
      && (NoReplay(t.outputs) || t.newState == HOME_STATE_IDX)
      && CoreOk(cp, c.(calls := c.calls + 1)) && |RedoEvents(t.outputs, Some(e))| <= |HeldBy(cp, c)|
      && Process(cp, clock, c, e) == Apply(cp, clock, c.(calls := c.calls + 1), t, Some(e))
  {
    ChosenFits(cp, c, e);
  }

  /** One call of Process: it applies a transition, and replays fewer events than were held. */
  lemma ProcessShape(cp: Compiled, clock: Clock, c: Core, e: InputEvent) returns (c': Core, redo: seq<InputEvent>)
    requires Ok(cp, c) && !c.paused
    ensures CoreOk(cp, Enter(clock, c.(calls := c.calls + 1), Chosen(cp, c, e))) &&
            OutputsBelow(Chosen(cp, c, e).outputs, |cp.states|)
    ensures redo == RedoEvents(Chosen(cp, c, e).outputs, Some(e))
    ensures c' == RunOutputs(cp, clock, Enter(clock, c.(calls := c.calls + 1), Chosen(cp, c, e)), Chosen(cp, c, e).outputs, Some(e))
    ensures c'.calls == c.calls + 1 && CoreOk(cp, c') && !c'.paused
    ensures redo == [] ==> Process(cp, clock, c, e) == c' && (Holding(cp, c) ==> |HeldBy(cp, c')| <= |HeldBy(cp, c)| + 1)
    ensures redo != [] ==> |redo| < |HeldBy(cp, c)| && Holding(cp, c') && HeldBy(cp, c') == [] &&
                           Process(cp, clock, c, e) == ProcessAll(cp, clock, c', redo)
  {
    var t := Chosen(cp, c, e);
    var c1 := c.(calls := c.calls + 1);
    ProcessIsApply(cp, clock, c, e);
    redo := RedoEvents(t.outputs, Some(e));
    c' := RunOutputs(cp, clock, Enter(clock, c1, t), t.outputs, Some(e));
    ApplyShape(cp, clock, c1, t, Some(e), c');
    assert |redo| > 0 ==> |redo| < |HeldBy(cp, c)| by {
      ChosenFits(cp, c, e);
    }
    assert Holding(cp, c) ==> |HeldBy(cp, c')| <= |HeldBy(cp, c)| + 1 by {
      ChosenFits(cp, c, e);
      if c'.state == HOME_STATE_IDX {
        HomeHoldsNothing(cp, c');
      }
    }
  }

  /** One event from a state that holds p events, leaving q held: its own call and its replays, with those still
      possible in the `k` events to come. */
  lemma {:induction false} ProcessCalls(cp: Compiled, clock: Clock, c: Core, e: InputEvent, r: Core, k: nat)
    requires Ok(cp, c) && !c.paused && Holding(cp, c) && r == Process(cp, clock, c, e)
    ensures r.calls + Worst(|HeldBy(cp, r)|, k) <= c.calls + 1 + Worst(|HeldBy(cp, c)|, k + 1)
    decreases |HeldBy(cp, c)|, 1, 0
  {
    var c', redo := ProcessShape(cp, clock, c, e);
    if redo != [] {
      RedoCalls(cp, clock, c', redo, r, k, |HeldBy(cp, c)|);
    } else {
      WorstAfterOne(|HeldBy(cp, c)|, |HeldBy(cp, r)|, k);
    }
  }

  lemma {:induction false} RedoCalls(cp: Compiled, clock: Clock, c: Core, redo: seq<InputEvent>, r: Core, k: nat, p: nat)
    requires Ok(cp, c) && !c.paused && Holding(cp, c) && HeldBy(cp, c) == [] && r == ProcessAll(cp, clock, c, redo)
    requires 0 < |redo| < p
    ensures r.calls + Worst(|HeldBy(cp, r)|, k) <= c.calls + Worst(p, k + 1)
    decreases p, 0, 0
  {
    ProcessAllCalls(cp, clock, c, redo, r, k);
    WorstAfterReplay(p, |redo|, k);
  }

  lemma {:induction false} ProcessAllCalls(cp: Compiled, clock: Clock, c: Core, events: seq<InputEvent>, r: Core, k: nat)
    requires Ok(cp, c) && !c.paused && Holding(cp, c) && r == ProcessAll(cp, clock, c, events)
    ensures r.calls + Worst(|HeldBy(cp, r)|, k) <= c.calls + |events| + Worst(|HeldBy(cp, c)|, |events| + k)
    decreases |HeldBy(cp, c)| + |events|, 0, |events|
  {
    if events != [] {
      var c' := Process(cp, clock, c, events[0]);
      assert Ok(cp, c') && !c'.paused && Holding(cp, c') && r == ProcessAll(cp, clock, c', events[1..]);
      ProcessCalls(cp, clock, c, events[0], c', |events| - 1 + k);
      ProcessAllCalls(cp, clock, c', events[1..], r, k);
    }
  }

  /** With p events held one key causes at most p * p / 4 + 1 calls, replays of replays and swapped layers included. */
  lemma OneKeyCalls(cp: Compiled, clock: Clock, c: Core, e: InputEvent)
    requires Ok(cp, c) && !c.paused
    ensures Process(cp, clock, c, e).calls <= c.calls + |HeldBy(cp, c)| * |HeldBy(cp, c)| / 4 + 1
  {
    if Holding(cp, c) {
      ProcessCalls(cp, clock, c, e, Process(cp, clock, c, e), 0);
      QuarterClosed(|HeldBy(cp, c)|);
    } else {
      WaitedHoldsNothing(cp, c);
      var _, _ := ProcessShape(cp, clock, c, e);
    }
  }

  /** A state whose minimum wait has run out has nothing to give back. */
  lemma WaitedHoldsNothing(cp: Compiled, c: Core)
    requires CoreOk(cp, c) && !Holding(cp, c)
    ensures HeldBy(cp, c) == []
  {
  }
}
