/** When a key overtakes events held before it, seen on the mapper itself. */
module Overtaking {
  import opened Options
  import opened Profiles
  import opened Automata
  import opened Trie
  import opened Acceptance
  import opened Structure
  import opened Outputs
  import opened MapperModel
  import opened Replaying
  import opened Profiling
  import opened MapperRuns
  import opened Matching
  import opened Refinement
  import opened Conservation
  import opened Histories
  import opened Order
  import opened Transparency
  import EndToEnd

  /** A minimum wait behind the pending word runs out at the next turn: the timer fires, and not to give the word up. */
  predicate WaitRunsOut(cp: Compiled, clock: Clock, c: Core)
    requires c.layer < |cp.states| && c.state < |cp.states[c.layer]|
  {
    var state := cp.states[c.layer][c.state];
    c.timer.Some? && c.timer.value <= clock(c.out.ticks) && state.timer != Some(state.fallback)
  }

  /** What the state holds back, unless the next turn finds that a minimum wait has run out. */
  function HeldOver(cp: Compiled, clock: Clock, c: Core): seq<InputEvent>
    requires c.layer < |cp.states| && c.state < |cp.states[c.layer]|
  {
    if WaitRunsOut(cp, clock, c) then [] else HeldBy(cp, c)
  }

  /** The turn that brings key `e` translates a beginning of what the state held, followed by `e`: nothing is overtaken. */
  ghost predicate TurnInOrder(clock: Clock, s: Sys, e: InputEvent)
    requires SysOk(s)
  {
    var before := DeliveredIn(s.core.out.log);
    var after := DeliveredIn(Step(clock, s, Iterate(Some(e))).core.out.log);
    before <= after && after[|before|..] <= HeldOver(s.cp, clock, s.core) + [e]
  }

  // ---------- short sequences ----------

  lemma OutputsDeliverNone(cp: Compiled, clock: Clock, c: Core, outputs: seq<StateMachineOutput>,
                           prev: Option<InputEvent>)
    requires Ok(cp, c) && !c.paused && OutputsBelow(outputs, |cp.states|) && forall i :: 0 <= i < |outputs| ==> outputs[i].Emit?
    ensures DeliveredIn(RunOutputs(cp, clock, c, outputs, prev).out.log) == DeliveredIn(c.out.log)
  {
    if outputs != [] {
      var before := outputs[..|outputs| - 1];
      OutputsDeliverNone(cp, clock, c, before, prev);
      EmitDeliversNothing(clock, RunOutputs(cp, clock, c, before, prev), outputs[|outputs| - 1].bind);
    }
  }

  /** An edge: the event itself if the sequence releases, and then binds. */
  predicate OneThenBinds(t: Transition, s: Sequence, e: InputEvent) {
    && NoReplay(t.outputs)
    && if s.behavior == SequenceBehavior.Release then
         t.outputs != [] && t.outputs[0] == BasicTranslation(Some(e)) && forall i :: 1 <= i < |t.outputs| ==> t.outputs[i].Emit?
       else forall i :: 0 <= i < |t.outputs| ==> t.outputs[i].Emit?
  }

  lemma EdgeOutputs(w: World, c: Core, x: Matcher, m: nat, e: InputEvent)
    requires Sim(w, c, x) && !c.paused && MatcherOk(w.p, x) && !Blocked(w.p, x)
    requires Scan(Rules(w.p, x), x.word + [e]) == Some(m)
    ensures OneThenBinds(Chosen(w.cp, c, e), Rules(w.p, x)[m], e)
  {
    ChosenByScan(w, c, x, e);
  }

  /** A state in which a minimum wait has run out holds nothing. */
  lemma WaitedHolds(w: World, c: Core, x: Matcher)
    requires Sim(w, c, x) && x.waited
    ensures w.cp.states[c.layer][c.state].fallback == SILENT_FALLBACK && HeldBy(w.cp, c) == []
  {
    FallbackByScan(w, c, x);
  }

  /** Whoever reads a longer word behaves like whoever reads the pending one: Release holds nothing. */
  lemma ReleaseHoldsNothing(w: World, c: Core, x: Matcher, m: nat, e: InputEvent)
    requires Sim(w, c, x) && MatcherOk(w.p, x)
    requires Scan(Rules(w.p, x), x.word + [e]) == Some(m) && Rules(w.p, x)[m].behavior == SequenceBehavior.Release
    ensures HeldBy(w.cp, c) == []
  {
    if x.waited {
      WaitedHolds(w, c, x);
    } else {
      EndToEnd.HeldByScan(w, c, x);
      if x.word != [] {
        var _, _, seqs := LayerFacts(w, c, x);
        assert x.word <= Word(seqs[m]);
        ReadersAgree(seqs, Scan(seqs, x.word).value, m, x.word);
      }
    }
  }

  /** What the call delivers. */
  ghost predicate Delivers(c: Core, events: seq<InputEvent>, r: Core) {
    DeliveredIn(r.out.log) == DeliveredIn(c.out.log) + events
  }

  /** A call that replays nothing. */
  lemma DirectOutputs(cp: Compiled, clock: Clock, c: Core, e: InputEvent, t: Transition, c1: Core)
    requires Ok(cp, c) && !c.paused && t == Chosen(cp, c, e) && RedoEvents(t.outputs, Some(e)) == []
    requires c1 == Enter(clock, c.(calls := c.calls + 1), t)
    ensures CoreOk(cp, c1) && !c1.paused && c1.out.log == c.out.log && OutputsBelow(t.outputs, |cp.states|)
    ensures Process(cp, clock, c, e) == RunOutputs(cp, clock, c1, t.outputs, Some(e))
  {
    ProcessIsApply(cp, clock, c, e);
  }

  lemma EdgeDelivers(w: World, clock: Clock, c: Core, x: Matcher, m: nat, e: InputEvent) returns (d: seq<InputEvent>)
    requires Sim(w, c, x) && !c.paused && MatcherOk(w.p, x) && !Blocked(w.p, x)
    requires Scan(Rules(w.p, x), x.word + [e]) == Some(m)
    ensures Delivers(c, d, Process(w.cp, clock, c, e)) && d <= HeldBy(w.cp, c) + [e]
  {
    var t := Chosen(w.cp, c, e);
    var c1 := Enter(clock, c.(calls := c.calls + 1), t);
    EdgeOutputs(w, c, x, m, e);
    NoReplayNoRedo(t.outputs, Some(e));
    DirectOutputs(w.cp, clock, c, e, t, c1);
    if Rules(w.p, x)[m].behavior == SequenceBehavior.Release {
      ReleaseHoldsNothing(w, c, x, m, e);
      OutputsDeliverOne(w.cp, clock, c1, t.outputs, Some(e), Some(e));
      d := [e];
    } else {
      OutputsDeliverNone(w.cp, clock, c1, t.outputs, Some(e));
      d := [];
    }
  }

  /** A short Default sequence has one event pending at most. */
  lemma OnePending(w: World, c: Core, x: Matcher)
    requires Sim(w, c, x) && ShortDefault(w.p) && MatcherOk(w.p, x) && !x.waited && x.word != []
    ensures Reading(w.p, x).Some?
    ensures Reading(w.p, x).value.behavior == SequenceBehavior.Default ==> |x.word| == 1
  {
    var b, l, seqs := LayerFacts(w, c, x);
    var m := StateByScan(b, l, seqs, c.state);
    assert HoldsOne(seqs[m]);
  }

  /** What the fallback of a state gives back, for a short Default sequence one event at most. */
  ghost predicate GivesBackHeld(t: Transition, held: seq<InputEvent>) {
    || (held == [] && (t == HOME_STATE.fallback || t == SILENT_FALLBACK))
    || (|held| == 1 && t == Fallback(SequenceBehavior.Default, held))
  }

  lemma ShortFallback(w: World, c: Core, x: Matcher)
    requires Sim(w, c, x) && ShortDefault(w.p) && MatcherOk(w.p, x)
    ensures GivesBackHeld(w.cp.states[c.layer][c.state].fallback, HeldBy(w.cp, c))
  {
    FallbackByScan(w, c, x);
    if x.waited {
      WaitedHolds(w, c, x);
    } else {
      EndToEnd.HeldByScan(w, c, x);
      if x.word != [] {
        OnePending(w, c, x);
      }
    }
  }

  /** The direct outputs of such a fallback, from HOME: what was held, and then the current event. */
  lemma FallbackOutputs(cp: Compiled, clock: Clock, c: Core, t: Transition, held: seq<InputEvent>, e: Option<InputEvent>)
      returns (d: seq<InputEvent>)
    requires Ok(cp, c) && !c.paused && GivesBackHeld(t, held) && OutputsBelow(t.outputs, |cp.states|)
    ensures RedoEvents(t.outputs, e) == [] && d <= held + Current(e) && (e.None? ==> d == held)
    ensures Delivers(c, d, RunOutputs(cp, clock, c, t.outputs, e))
  {
    if t == SILENT_FALLBACK {
      d := [];
    } else if held == [] {
      NoReplayNoRedo(t.outputs, e);
      OutputsDeliverOne(cp, clock, c, t.outputs, e, e);
      d := Current(e);
    } else {
      FallbackEvents(SequenceBehavior.Default, held, e);
      OneBack(cp, clock, c, held, e);
      d := held + Current(e);
    }
  }

  lemma OneBack(cp: Compiled, clock: Clock, c: Core, held: seq<InputEvent>, e: Option<InputEvent>)
    requires Ok(cp, c) && !c.paused && |held| == 1
    requires OutputsBelow(Fallback(SequenceBehavior.Default, held).outputs, |cp.states|)
    ensures Delivers(c, held + Current(e), RunOutputs(cp, clock, c, Fallback(SequenceBehavior.Default, held).outputs, e))
  {
    RunFallback(cp, clock, c, held, e);
    DeliverDelivers(cp, clock, c, held[0]);
    if e.Some? {
      DeliverDelivers(cp, clock, Deliver(cp, clock, c, held[0]), e.value);
    }
    assert held + Current(e) == [held[0]] + Current(e);
  }

  lemma FallbackDelivers(w: World, clock: Clock, c: Core, x: Matcher, e: InputEvent) returns (d: seq<InputEvent>)
    requires Sim(w, c, x) && !c.paused && ShortDefault(w.p) && MatcherOk(w.p, x)
    requires Blocked(w.p, x) || Scan(Rules(w.p, x), x.word + [e]).None?
    ensures Delivers(c, d, Process(w.cp, clock, c, e)) && d <= HeldBy(w.cp, c) + [e]
  {
    var t := Chosen(w.cp, c, e);
    var c1 := Enter(clock, c.(calls := c.calls + 1), t);
    ChosenByScan(w, c, x, e);
    ShortFallback(w, c, x);
    ProcessIsApply(w.cp, clock, c, e);
    d := FallbackOutputs(w.cp, clock, c1, t, HeldBy(w.cp, c), Some(e));
    DirectOutputs(w.cp, clock, c, e, t, c1);
  }

  /** The key, once the timer has been seen to. */
  lemma KeyDelivers(w: World, clock: Clock, c: Core, x: Matcher, e: InputEvent) returns (d: seq<InputEvent>)
    requires Sim(w, c, x) && !c.paused && ShortDefault(w.p) && MatcherOk(w.p, x)
    ensures Delivers(c, d, Process(w.cp, clock, c, e)) && d <= HeldBy(w.cp, c) + [e]
  {
    var found := Scan(Rules(w.p, x), x.word + [e]);
    if !Blocked(w.p, x) && found.Some? {
      d := EdgeDelivers(w, clock, c, x, found.value, e);
    } else {
      d := FallbackDelivers(w, clock, c, x, e);
    }
  }

  /** A timer transition that gives the word up: everything held is given back. */
  lemma GiveUpDelivers(w: World, clock: Clock, c: Core, x: Matcher, t: Transition)
    requires Sim(w, c, x) && !c.paused && ShortDefault(w.p) && MatcherOk(w.p, x)
    requires t == w.cp.states[c.layer][c.state].fallback && t.newState < |w.cp.states[c.layer]|
    requires OutputsBelow(t.outputs, |w.cp.states|) && t.timerMs.None? && t.newState == HOME_STATE_IDX
    ensures Delivers(c, HeldBy(w.cp, c), Apply(w.cp, clock, c, t, None)) && HeldBy(w.cp, Apply(w.cp, clock, c, t, None)) == []
  {
    var c1 := Enter(clock, c, t);
    ShortFallback(w, c, x);
    var d := FallbackOutputs(w.cp, clock, c1, t, HeldBy(w.cp, c), None);
    var c2 := RunOutputs(w.cp, clock, c1, t.outputs, None);
    ApplyShape(w.cp, clock, c, t, None, c2);
    HomeHoldsNothing(w.cp, c2);
  }

  /** A minimum wait that has run out: nothing is translated, and nothing is held any more. */
  lemma WaitDelivers(w: World, clock: Clock, c: Core, x: Matcher, t: Transition)
    requires Sim(w, c, x) && !c.paused && MatcherOk(w.p, x)
    requires w.cp.states[c.layer][c.state].timer == Some(t) && t != w.cp.states[c.layer][c.state].fallback
    requires t.newState < |w.cp.states[c.layer]| && OutputsBelow(t.outputs, |w.cp.states|) && t.timerMs.None?
    requires NoReplay(t.outputs) || t.newState == HOME_STATE_IDX
    ensures Delivers(c, [], Apply(w.cp, clock, c, t, None)) && HeldBy(w.cp, Apply(w.cp, clock, c, t, None)) == []
  {
    var m := TimerByScan(w, c, x, t);
    var c2 := RunOutputs(w.cp, clock, Enter(clock, c, t), t.outputs, None);
    assert forall i :: 0 <= i < |t.outputs| ==> t.outputs[i].Emit?;
    NoReplayNoRedo(t.outputs, None);
    OutputsDeliverNone(w.cp, clock, Enter(clock, c, t), t.outputs, None);
    ApplyShape(w.cp, clock, c, t, None, c2);
    if c2.state == HOME_STATE_IDX {
      HomeHoldsNothing(w.cp, c2);
    } else {
      assert w.labellings[c.layer].labels[t.newState] == Label(x.word, true);
      SimMove(w, c, x, t.newState, None, c.out, x.word, true);
      WaitedHolds(w, c2, x.(waited := true, timer := None));
    }
  }

  lemma FiredDelivers(w: World, clock: Clock, c: Core, x: Matcher, t: Transition) returns (d: seq<InputEvent>)
    requires Sim(w, c, x) && !c.paused && ShortDefault(w.p) && MatcherOk(w.p, x)
    requires w.cp.states[c.layer][c.state].timer == Some(t)
    requires t.newState < |w.cp.states[c.layer]| && OutputsBelow(t.outputs, |w.cp.states|) && t.timerMs.None?
    requires NoReplay(t.outputs) || t.newState == HOME_STATE_IDX
    ensures Delivers(c, d, Apply(w.cp, clock, c, t, None)) && HeldBy(w.cp, Apply(w.cp, clock, c, t, None)) == []
    ensures d == if t == w.cp.states[c.layer][c.state].fallback then HeldBy(w.cp, c) else []
  {
    if t == w.cp.states[c.layer][c.state].fallback {
      FallbackByScan(w, c, x);
      GiveUpDelivers(w, clock, c, x, t);
      d := HeldBy(w.cp, c);
    } else {
      WaitDelivers(w, clock, c, x, t);
      d := [];
    }
  }

  lemma LateDelivers(w: World, clock: Clock, c: Core, x: Matcher, r: Core) returns (d: seq<InputEvent>)
    requires Sim(w, c, x) && !c.paused && ShortDefault(w.p) && MatcherOk(w.p, x) && r == Tick(w.cp, clock, c)
    requires c.timer.Some? && c.timer.value <= clock(c.out.ticks)
    ensures Delivers(c, d, r) && HeldBy(w.cp, r) == [] && d == HeldOver(w.cp, clock, c)
  {
    var c0, x0 := c.(out := c.out.(ticks := c.out.ticks + 1)), x.(out := x.out.(ticks := x.out.ticks + 1));
    TickApplies(w.cp, clock, c);
    SimMove(w, c, x, c.state, c.timer, c0.out, x.word, x.waited);
    d := FiredDelivers(w, clock, c0, x0, w.cp.states[c.layer][c.state].timer.value);
  }

  /** The timer's part of a turn: what is translated, and what is held afterwards. */
  lemma TickDelivers(w: World, clock: Clock, c: Core, x: Matcher, r: Core) returns (d: seq<InputEvent>)
    requires Sim(w, c, x) && !c.paused && ShortDefault(w.p) && MatcherOk(w.p, x) && r == Tick(w.cp, clock, c)
    ensures Delivers(c, d, r) && d + HeldBy(w.cp, r) == HeldOver(w.cp, clock, c)
  {
    d := [];
    if c.timer.Some? && c.timer.value <= clock(c.out.ticks) {
      d := LateDelivers(w, clock, c, x, r);
    }
  }

  lemma Joined(held: seq<InputEvent>, d1: seq<InputEvent>, h: seq<InputEvent>, d2: seq<InputEvent>, e: InputEvent)
    requires d1 + h == held && d2 <= h + [e]
    ensures d1 + d2 <= held + [e]
  {
    assert held + [e] == d1 + (h + [e]);
  }

  lemma DeliversBoth(c: Core, d1: seq<InputEvent>, c1: Core, d2: seq<InputEvent>, r: Core)
    requires Delivers(c, d1, c1) && Delivers(c1, d2, r)
    ensures Delivers(c, d1 + d2, r)
  {
    assert (DeliveredIn(c.out.log) + d1) + d2 == DeliveredIn(c.out.log) + (d1 + d2);
  }

  lemma TurnDelivers(w: World, clock: Clock, c: Core, x: Matcher, e: InputEvent, c1: Core) returns (d: seq<InputEvent>)
    requires Sim(w, c, x) && !c.paused && ShortDefault(w.p) && MatcherOk(w.p, x) && c1 == Tick(w.cp, clock, c)
    ensures Delivers(c, d, Process(w.cp, clock, c1, e)) && d <= HeldOver(w.cp, clock, c) + [e]
  {
    var x1 := MatchTick(w.p, clock, x);
    SimTick(w, clock, c, x);
    var d1 := TickDelivers(w, clock, c, x, c1);
    var d2 := KeyDelivers(w, clock, c1, x1, e);
    Joined(HeldOver(w.cp, clock, c), d1, HeldBy(w.cp, c1), d2, e);
    DeliversBoth(c, d1, c1, d2, Process(w.cp, clock, c1, e));
    d := d1 + d2;
  }

  /** With short Default sequences, waits or not: no key overtakes what is held. */
  lemma ShortTurn(w: World, clock: Clock, s: Sys, m: MSys, e: InputEvent)
    requires Matched(w, s, m) && !s.core.paused && ShortDefault(w.p)
    ensures TurnInOrder(clock, s, e)
  {
    var c1 := Tick(s.cp, clock, s.core);
    var d := TurnDelivers(w, clock, s.core, m.matcher, e, c1);
    assert Step(clock, s, Iterate(Some(e))).core.out.log == Process(s.cp, clock, c1, e).out.log;
  }

  // ---------- the mapper after a run ----------

  /** Where the mapper is after a run of keys and layer changes from the start. */
  ghost function Reached(p: Profile, clock: Clock, ops: seq<Op>): (s: Sys)
    requires Sound(p) && CompileProfile(p).Some? && KeysAndLayers(ops)
    ensures SysOk(s)
  {
    SoundAdmissible(p);
    StartOk(p);
    Run(clock, StartMapper(p), ops)
  }

  lemma ReachedMatched(p: Profile, clock: Clock, ops: seq<Op>) returns (w: World, m: MSys)
    requires Sound(p) && CompileProfile(p).Some? && KeysAndLayers(ops)
    ensures w.p == p && m == MatchRun(clock, StartMatcher(p), ops) && Matched(w, Reached(p, clock, ops), m) && !m.matcher.paused
  {
    var w0 := SimStart(p);
    w := SimRun(w0, clock, StartMapper(p), StartMatcher(p), ops);
    m := MatchRun(clock, StartMatcher(p), ops);
    StaysUnpaused(p, clock, ops);
  }

  lemma {:induction false} StaysUnpaused(p: Profile, clock: Clock, ops: seq<Op>)
    requires WellFormed(p) && KeysAndLayers(ops)
    ensures var m := MatchRun(clock, StartMatcher(p), ops); m.profile == p && !m.matcher.paused
    decreases |ops|
  {
    if ops != [] {
      StaysUnpaused(p, clock, ops[..|ops| - 1]);
    }
  }

  // ---------- long sequences ----------

  lemma {:induction false} RenderGrows(a: seq<Account>, b: seq<Account>)
    requires a <= b
    ensures DeliveredIn(Render(a)) <= DeliveredIn(Render(b))
  {
    if a != b {
      var before := b[..|b| - 1];
      RenderGrows(a, before);
      EndToEnd.DeliveredAppend(Render(before), RenderEntry(b[|b| - 1]));
    }
  }

  lemma RenderPassed(account: seq<Account>, e: InputEvent)
    ensures DeliveredIn(Render(account + [Passed(e)])) == DeliveredIn(Render(account)) + [e]
  {
    NoteHistory(account, Passed(e));
    DeliveredNote(Render(account), Delivered(e));
  }

  lemma NothingDelivered(account: seq<Account>)
    requires Flatten(account) == []
    ensures DeliveredIn(Render(account)) == []
  {
    EndToEnd.AccountSplits(account);
    assert |multiset(DeliveredIn(Render(account)))| == 0;
  }

  lemma PassedTwice(account: seq<Account>, a: InputEvent, e: InputEvent, two: seq<Account>, grown: seq<Account>)
    requires Flatten(account) == [] && two == account + [Passed(a)] + [Passed(e)] && two <= grown
    ensures [a, e] <= DeliveredIn(Render(grown))
  {
    NothingDelivered(account);
    RenderPassed(account, a);
    RenderPassed(account + [Passed(a)], e);
    RenderGrows(two, grown);
  }

  /** The third key comes out before the second, in the matcher's account. */
  lemma AccountOvertakes(p: Profile, clock: Clock, x: Matcher, e: InputEvent)
    requires Calm(p, x) && |x.word| == 2 && Scan(Rules(p, x), x.word + [e]).None?
    ensures [x.word[0], e] <= DeliveredIn(Render(MatchEvent(p, clock, x, e).account))
  {
    var x1 := ThirdFirst(p, clock, x, e);
    HomeEventGrows(p, clock, x1, x.word[1]);
    PassedTwice(x.account, x.word[0], e, x1.account, MatchEvent(p, clock, x1, x.word[1]).account);
  }

  lemma UntimedTurn(p: Profile, clock: Clock, x: Matcher, e: InputEvent)
    requires MatcherOk(p, x) && x.timer.None?
    ensures MatchIterate(p, clock, x, Some(e)).account == MatchEvent(p, clock, x, e).account
  {
  }

  lemma LogDelivers(p: Profile, clock: Clock, ops: seq<Op>)
    requires Sound(p) && CompileProfile(p).Some? && KeysAndLayers(ops)
    ensures DeliveredIn(Reached(p, clock, ops).core.out.log) ==
      DeliveredIn(Render(MatchRun(clock, StartMatcher(p), ops).matcher.account))
  {
    EndToEnd.MapperAccounts(p, clock, ops);
    EndToEnd.VisibleDelivers(Reached(p, clock, ops).core.out.log);
  }

  /** The mapper holds `a` and `b` and has delivered nothing; key `e` then brings out `a` and `e`, in front of `b`. */
  ghost predicate Overtakes(clock: Clock, s: Sys, a: InputEvent, b: InputEvent, e: InputEvent)
    requires SysOk(s)
  {
    && HeldBy(s.cp, s.core) == [a, b] && DeliveredIn(s.core.out.log) == [] && b != e
    && [a, e] <= DeliveredIn(Step(clock, s, Iterate(Some(e))).core.out.log)
  }

  lemma OutOfOrder(clock: Clock, s: Sys, a: InputEvent, b: InputEvent, e: InputEvent)
    requires SysOk(s) && Overtakes(clock, s, a, b, e)
    ensures !TurnInOrder(clock, s, e)
  {
    var after := DeliveredIn(Step(clock, s, Iterate(Some(e))).core.out.log);
    assert after[0..] == after;
    assert after[1] == e && ([a, b] + [e])[1] == b;
  }

  lemma ReachedNext(p: Profile, clock: Clock, ops: seq<Op>, op: Op, next: seq<Op>)
    requires Sound(p) && CompileProfile(p).Some? && KeysAndLayers(ops) && KeysAndLayers(next) && next == ops + [op]
    ensures OpOk(op) && Reached(p, clock, next) == Step(clock, Reached(p, clock, ops), op)
  {
    assert next[..|ops|] == ops && next[|ops|] == op;
  }

  lemma HeldAfter(p: Profile, clock: Clock, ops: seq<Op>, x: Matcher)
    requires Sound(p) && CompileProfile(p).Some? && CalmAfter(p, clock, ops, x) && x.word != []
    ensures HeldBy(Reached(p, clock, ops).cp, Reached(p, clock, ops).core) == x.word
  {
    var w, m := ReachedMatched(p, clock, ops);
    EndToEnd.HeldByScan(w, Reached(p, clock, ops).core, x);
  }

  /** Two events are pending after `ops`, and key `e` goes on with nothing. */
  ghost predicate TwoPending(p: Profile, clock: Clock, ops: seq<Op>, x: Matcher, a: InputEvent, b: InputEvent,
                             e: InputEvent) {
    CalmAfter(p, clock, ops, x) && x.word == [a, b] && b != e && Scan(Rules(p, x), x.word + [e]).None?
  }

  lemma OvertakenAfter(p: Profile, clock: Clock, ops: seq<Op>, x: Matcher, a: InputEvent, b: InputEvent, e: InputEvent)
    requires Sound(p) && CompileProfile(p).Some? && TwoPending(p, clock, ops, x, a, b, e)
    ensures KeysAndLayers(ops) && Inputs(ops) == [a, b] && Overtakes(clock, Reached(p, clock, ops), a, b, e)
  {
    var next := ops + [Iterate(Some(e))];
    HeldAfter(p, clock, ops, x);
    LogDelivers(p, clock, ops);
    NothingDelivered(x.account);
    AccountOvertakes(p, clock, x, e);
    UntimedTurn(p, clock, x, e);
    MatchRunNext(clock, StartMatcher(p), ops, Iterate(Some(e)));
    LogDelivers(p, clock, next);
    ReachedNext(p, clock, ops, Iterate(Some(e)), next);
  }

  lemma LongPending(p: Profile, clock: Clock, layer: nat, m: nat)
      returns (ops: seq<Op>, x: Matcher, a: InputEvent, b: InputEvent, e: InputEvent)
    requires WellFormed(p) && Acceptable(p) && UntimedProfile(p) && layer < |p.layers|
    requires m < |ParseLayer(p.layers[layer])| && !HoldsOne(ParseLayer(p.layers[layer])[m])
    ensures TwoPending(p, clock, ops, x, a, b, e)
  {
    ops, x, e := LongDefaultHeld(p, clock, layer, m);
    a, b := x.word[0], x.word[1];
  }

  /** A long Default sequence, on the mapper: a run of keys after which it holds two of them, and a key that overtakes
      the second. */
  lemma LongOvertakes(p: Profile, clock: Clock, layer: nat, m: nat)
      returns (ops: seq<Op>, a: InputEvent, b: InputEvent, e: InputEvent)
    requires WellFormed(p) && Acceptable(p) && UntimedProfile(p) && layer < |p.layers|
    requires m < |ParseLayer(p.layers[layer])| && !HoldsOne(ParseLayer(p.layers[layer])[m])
    ensures Sound(p) && CompileProfile(p).Some? && KeysAndLayers(ops) && Inputs(ops) == [a, b]
    ensures Overtakes(clock, Reached(p, clock, ops), a, b, e)
  {
    var x;
    ops, x, a, b, e := LongPending(p, clock, layer, m);
    UntimedSound(p);
    OvertakenAfter(p, clock, ops, x, a, b, e);
  }

  /** With short Default sequences no key overtakes held events, in any run of keys, timeouts and layer changes. */
  lemma ShortNeverOvertakes(p: Profile, clock: Clock, ops: seq<Op>, e: InputEvent)
    requires Sound(p) && CompileProfile(p).Some? && ShortDefault(p) && KeysAndLayers(ops)
    ensures TurnInOrder(clock, Reached(p, clock, ops), e)
  {
    var w, m := ReachedMatched(p, clock, ops);
    ShortTurn(w, clock, Reached(p, clock, ops), m, e);
  }

  /** For acceptable untimed profiles: no key overtakes held events, in any run of keys and layer changes, exactly when no
      Default sequence is longer than two events. */
  lemma OvertakingExact(p: Profile, clock: Clock)
    requires WellFormed(p) && Acceptable(p) && UntimedProfile(p)
    ensures Sound(p) && CompileProfile(p).Some?
    ensures (forall ops, e :: KeysAndLayers(ops) ==> TurnInOrder(clock, Reached(p, clock, ops), e)) <==> ShortDefault(p)
  {
    UntimedSound(p);
    if ShortDefault(p) {
      forall ops, e | KeysAndLayers(ops)
        ensures TurnInOrder(clock, Reached(p, clock, ops), e)
      {
        ShortNeverOvertakes(p, clock, ops, e);
      }
    } else {
      var i, m :| 0 <= i < |p.layers| && 0 <= m < |ParseLayer(p.layers[i])| && !HoldsOne(ParseLayer(p.layers[i])[m]);
      var ops, a, b, e := LongOvertakes(p, clock, i, m);
      OutOfOrder(clock, Reached(p, clock, ops), a, b, e);
    }
  }
}
