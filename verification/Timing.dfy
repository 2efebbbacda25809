/** What the clock decides: whether the event after a wait advances its sequence. */
module Timing {
  import opened Options
  import opened Profiles
  import opened Automata
  import opened Trie
  import opened Structure
  import opened Outputs
  import opened OutputQueue
  import opened MapperModel
  import opened Replaying
  import opened Profiling
  import opened MapperRuns
  import opened Matching
  import opened Refinement

  function EdgesAt(cp: Compiled, c: Core): map<InputEvent, Transition>
    requires c.layer < |cp.states| && c.state < |cp.states[c.layer]|
  {
    cp.states[c.layer][c.state].edges
  }

  /** The layer that translating a released event swaps to, if any. */
  function SwapOnRelease(p: Profile, x: Matcher, s: Sequence, e: InputEvent): Option<nat>
    requires MatcherOk(p, x)
  {
    if s.behavior == SequenceBehavior.Release then DeliverSwap(FindRemapping(p.layers[x.layer].basicRemappings, e)) else None
  }

  /** Layer and timer after an event with a wait behind it, which was due at `due` unless the layer was swapped. */
  predicate Armed(layer: nat, timer: Option<nat>, before: nat, swap: Option<nat>, due: nat) {
    if swap.Some? then layer == swap.value && timer.None? else layer == before && timer == Some(due)
  }

  /** Event `e` goes on with sequence `m`, in which a wait of `ms` is written behind it. */
  ghost predicate WaitFollows(p: Profile, x: Matcher, m: nat, e: InputEvent, ms: nat) {
    && MatcherOk(p, x) && !x.paused && !Blocked(p, x) && Scan(Rules(p, x), x.word + [e]) == Some(m)
    && Ms(TimerAfter(Rules(p, x)[m], |x.word| + 1)) == Some(ms)
  }

  /** The same event, as the matcher takes it. */
  lemma ArmedAdvance(p: Profile, clock: Clock, x: Matcher, m: nat, e: InputEvent, ms: nat, r: Matcher, swap: Option<nat>)
    requires WaitFollows(p, x, m, e, ms) && swap == SwapOnRelease(p, x, Rules(p, x)[m], e) && r == MatchEvent(p, clock, x, e)
    ensures Armed(r.layer, r.timer, x.layer, swap, ms + clock(x.out.ticks))
    ensures !r.waited && r.word == if swap.Some? then [] else x.word + [e]
  {
    var s, word := Rules(p, x)[m], x.word + [e];
    assert !IsComplete(s, word);
    var x1 := Arm(clock, x.(word := word, waited := false), TimerAfter(s, |word|));
    assert r == if s.behavior == SequenceBehavior.Release then Pass(p, clock, x1, e) else x1;
  }

  lemma SameTimers(w: World, c: Core, x: Matcher)
    requires Sim(w, c, x)
    ensures c.timer == x.timer && c.out == x.out && c.layer == x.layer
  {
  }

  /** An event with a wait behind it arms the timer: the reading made on entering the state, plus the wait. Only a
      layer swap, by the remapping of an event a Release sequence lets through, cancels it again. */
  lemma TimerArmed(w: World, clock: Clock, c: Core, x: Matcher, m: nat, e: InputEvent, ms: nat, r: Core, x': Matcher,
                   swap: Option<nat>)
    requires Sim(w, c, x) && WaitFollows(w.p, x, m, e, ms) && swap == SwapOnRelease(w.p, x, Rules(w.p, x)[m], e)
    requires r == Process(w.cp, clock, c, e) && x' == MatchEvent(w.p, clock, x, e)
    ensures Sim(w, r, x') && !x'.waited && x'.word == if swap.Some? then [] else x.word + [e]
    ensures Armed(r.layer, r.timer, x.layer, swap, ms + clock(x.out.ticks)) && c.layer == x.layer && c.out == x.out
  {
    SimEvent(w, clock, c, x, e);
    SameTimers(w, r, x');
    ArmedAdvance(w.p, clock, x, m, e, ms, x', swap);
  }

  lemma BlockedHasNoEdges(w: World, c: Core, x: Matcher)
    requires Sim(w, c, x) && MatcherOk(w.p, x) && Blocked(w.p, x)
    ensures EdgesAt(w.cp, c) == map[]
  {
    var b, l, seqs := LayerFacts(w, c, x);
    var m := StateByScan(b, l, seqs, c.state);
  }

  lemma ReadsOn(w: World, c: Core, x: Matcher, e: InputEvent)
    requires Sim(w, c, x) && !c.paused && MatcherOk(w.p, x) && !Blocked(w.p, x)
    requires Scan(Rules(w.p, x), x.word + [e]).Some?
    ensures e in EdgesAt(w.cp, c)
  {
    ChosenByScan(w, c, x, e);
  }

  /** After a maximum wait an event that goes on with the word finds its edge exactly when the turn's clock is below the
      armed time; otherwise the state's own fallback has been taken first, with no current event. */
  lemma MaximumWaitDecides(w: World, clock: Clock, c: Core, x: Matcher, e: InputEvent)
    requires Sim(w, c, x) && !c.paused && c.timer.Some? && MatcherOk(w.p, x) && Reading(w.p, x).Some? && !x.waited
    requires !IsMinimum(TimerAfter(Reading(w.p, x).value, |x.word|)) && Scan(Rules(w.p, x), x.word + [e]).Some?
    ensures var c0 := c.(out := c.out.(ticks := c.out.ticks + 1));
      var fallback := w.cp.states[c.layer][c.state].fallback;
      if clock(c.out.ticks) < c.timer.value then Tick(w.cp, clock, c) == c0 && e in EdgesAt(w.cp, c0)
      else
        && CoreOk(w.cp, c0) && 0 < |w.cp.states[c.layer]| && OutputsBelow(fallback.outputs, |w.cp.states|)
        && fallback.timerMs.None? && fallback.newState == HOME_STATE_IDX
        && Tick(w.cp, clock, c) == Apply(w.cp, clock, c0, fallback, None)
  {
    TickApplies(w.cp, clock, c);
    var m := TimerByScan(w, c, x, w.cp.states[c.layer][c.state].timer.value);
    assert LayerRuns(w.cp, c.layer);
    ReadsOn(w, c, x, e);
  }

  /** The clock and a minimum wait, as the matcher takes them. */
  lemma MinimumTick(p: Profile, clock: Clock, x: Matcher)
    requires MatcherOk(p, x) && !x.paused && x.timer.Some? && Blocked(p, x)
    ensures var x0 := x.(out := x.out.(ticks := x.out.ticks + 1));
      var s := Reading(p, x).value;
      MatchTick(p, clock, x) ==
        if clock(x.out.ticks) < x.timer.value then x0
        else if |x.word| == |s.nodes| then Fire(clock, x0, s, Unreleased(s, x.word))
        else x0.(waited := true, timer := None)
  {
    var x0 := x.(out := x.out.(ticks := x.out.ticks + 1));
    assert Reading(p, x0) == Reading(p, x);
  }

  /** After a minimum wait an event that goes on with the word finds its edge exactly when the turn's clock is at or
      above the armed time; before that the state has no edges at all. */
  lemma MinimumWaitDecides(w: World, clock: Clock, c: Core, x: Matcher, e: InputEvent, c1: Core)
    requires Sim(w, c, x) && !c.paused && c.timer.Some? && MatcherOk(w.p, x) && Blocked(w.p, x)
    requires Scan(Rules(w.p, x), x.word + [e]).Some? && |x.word| < |Reading(w.p, x).value.nodes|
    requires c1 == Tick(w.cp, clock, c)
    ensures c1.layer == c.layer && LayerOk(w, c1.layer) && CoreOk(w.cp, c1)
    ensures if clock(c.out.ticks) < c.timer.value then
        w.labellings[c.layer].labels[c1.state] == Label(x.word, false) && EdgesAt(w.cp, c1) == map[]
      else
        w.labellings[c.layer].labels[c1.state] == Label(x.word, true) && c1.timer.None? && e in EdgesAt(w.cp, c1)
  {
    var x1 := MatchTick(w.p, clock, x);
    SimTick(w, clock, c, x);
    MinimumTick(w.p, clock, x);
    if clock(c.out.ticks) < c.timer.value {
      BlockedHasNoEdges(w, c1, x1);
    } else {
      ReadsOn(w, c1, x1, e);
    }
  }

  /** A sequence that ends in a minimum wait runs its binds as soon as a turn finds the wait over, without any event. */
  lemma FinalWaitFires(w: World, clock: Clock, c: Core, x: Matcher, c1: Core)
    requires Sim(w, c, x) && !c.paused && c.timer.Some? && MatcherOk(w.p, x) && Blocked(w.p, x)
    requires |x.word| == |Reading(w.p, x).value.nodes| && c1 == Tick(w.cp, clock, c)
    ensures var x0, s := x.(out := x.out.(ticks := x.out.ticks + 1)), Reading(w.p, x).value;
      Sim(w, c1, if clock(c.out.ticks) < c.timer.value then x0 else Fire(clock, x0, s, Unreleased(s, x.word)))
  {
    SimTick(w, clock, c, x);
    MinimumTick(w.p, clock, x);
  }
}
