/** What the clock decides over whole runs: a wait begins, turns pass without a key, and then the next key comes. */
module Deadlines {
  import opened Options
  import opened Profiles
  import opened Automata
  import opened Trie
  import opened Outputs
  import opened OutputQueue
  import opened MapperModel
  import opened Profiling
  import opened MapperRuns
  import opened Matching
  import opened Refinement
  import opened Timing
  import opened Growth
  import Conservation
  import Order

  /** The matcher after that many turns without a key. */
  function Idle(p: Profile, clock: Clock, x: Matcher, turns: nat): (r: Matcher)
    requires MatcherOk(p, x)
    ensures MatcherOk(p, r) && r.paused == x.paused
  {
    if turns == 0 then x else MatchIterate(p, clock, Idle(p, clock, x, turns - 1), None)
  }

  /** `word` is pending, and the wait behind it ends at `due`. */
  ghost predicate Waiting(p: Profile, x: Matcher, word: seq<InputEvent>, due: nat) {
    MatcherOk(p, x) && !x.paused && !x.waited && x.word == word && word != [] && x.timer == Some(due)
  }

  /** The wait behind the pending word. */
  function WaitOf(p: Profile, x: Matcher): Option<Timer>
    requires MatcherOk(p, x)
  {
    match Reading(p, x)
    case None => None
    case Some(s) => TimerAfter(s, |x.word|)
  }

  /** The reading the turn starts with, if a timer is armed. */
  function ReadTick(x: Matcher): Matcher {
    x.(out := x.out.(ticks := x.out.ticks + 1))
  }

  lemma EarlyTick(p: Profile, clock: Clock, x: Matcher)
    requires MatcherOk(p, x) && x.timer.Some? && clock(x.out.ticks) < x.timer.value
    ensures MatcherOk(p, ReadTick(x)) && MatchTick(p, clock, x) == ReadTick(x)
  {
  }

  lemma IdleTurn(p: Profile, clock: Clock, x: Matcher)
    requires MatcherOk(p, x)
    ensures var z, r := MatchTick(p, clock, x), MatchIterate(p, clock, x, None);
      r == z.(out := Flush(clock, z.out)) && x.out.ticks <= z.out.ticks <= r.out.ticks
  {
    TickAdds(p, clock, x);
  }

  // ---------- maximum waits ----------

  /** A word given up for lack of time leaves a shorter one pending, if any. */
  lemma AbandonShortens(p: Profile, clock: Clock, x: Matcher, e: Option<InputEvent>)
    requires MatcherOk(p, x) && !x.paused && x.word != [] && !x.waited
    ensures |Abandon(p, clock, x, e).word| < |x.word|
  {
  }

  lemma ExpireShortens(p: Profile, clock: Clock, x: Matcher)
    requires MatcherOk(p, x) && !x.paused
    ensures |Expire(p, clock, x).word| <= |x.word|
    ensures x.word != [] && !x.waited && WaitOf(p, x).Some? && WaitOf(p, x).value.MaximumWait? ==>
      |Expire(p, clock, x).word| < |x.word|
  {
    if Reading(p, x).Some? && WaitOf(p, x).Some? {
      var s := Reading(p, x).value;
      if WaitOf(p, x).value.MaximumWait? {
        if x.word != [] && !x.waited {
          AbandonShortens(p, clock, x, None);
        }
      } else if |x.word| == |s.nodes| {
        RuleBelow(p, x, Scan(Rules(p, x), x.word).value);
        EmitEachOk(p, clock, Note(Reset(x), Fired(s, Unreleased(s, x.word))), s.binds);
      }
    }
  }

  lemma LateTick(p: Profile, clock: Clock, x: Matcher)
    requires MatcherOk(p, x)
    ensures |MatchTick(p, clock, x).word| <= |x.word|
    ensures (x.timer.Some? && x.timer.value <= clock(x.out.ticks) && x.word != [] && !x.waited &&
             WaitOf(p, x).Some? && WaitOf(p, x).value.MaximumWait?) ==> |MatchTick(p, clock, x).word| < |x.word|
  {
    if x.timer.Some? && x.timer.value <= clock(x.out.ticks) {
      Conservation.ExpiredTick(p, clock, x, ReadTick(x));
      ExpireShortens(p, clock, ReadTick(x));
    }
  }

  lemma SameWait(p: Profile, x: Matcher, y: Matcher)
    requires MatcherOk(p, x) && MatcherOk(p, y) && y.layer == x.layer && y.word == x.word
    ensures Rules(p, y) == Rules(p, x) && Reading(p, y) == Reading(p, x) && WaitOf(p, y) == WaitOf(p, x)
    ensures !x.waited && !y.waited ==> Blocked(p, y) == Blocked(p, x)
  {
  }

  predicate MaximumAfter(p: Profile, x: Matcher)
    requires MatcherOk(p, x)
  {
    WaitOf(p, x).Some? && WaitOf(p, x).value.MaximumWait?
  }

  /** Still waiting in the same layer, or too late and with less pending. */
  ghost predicate WaitingOrLate(p: Profile, clock: Clock, x: Matcher, layer: nat, word: seq<InputEvent>, due: nat) {
    && MatcherOk(p, x)
    && if x.word == word then Waiting(p, x, word, due) && x.layer == layer && MaximumAfter(p, x)
       else |x.word| < |word| && due <= clock(x.out.ticks)
  }

  lemma MaximumIdleTurn(p: Profile, clock: Clock, x: Matcher, layer: nat, word: seq<InputEvent>, due: nat)
    requires Monotone(clock) && WaitingOrLate(p, clock, x, layer, word, due)
    ensures WaitingOrLate(p, clock, MatchIterate(p, clock, x, None), layer, word, due)
  {
    IdleTurn(p, clock, x);
    LateTick(p, clock, x);
    if x.word == word && clock(x.out.ticks) < due {
      EarlyTick(p, clock, x);
      SameWait(p, x, MatchIterate(p, clock, x, None));
    }
  }

  lemma {:induction false} MaximumIdle(p: Profile, clock: Clock, x: Matcher, word: seq<InputEvent>, due: nat, turns: nat)
    requires Monotone(clock) && Waiting(p, x, word, due) && MaximumAfter(p, x)
    ensures WaitingOrLate(p, clock, Idle(p, clock, x, turns), x.layer, word, due)
    decreases turns
  {
    if turns > 0 {
      MaximumIdle(p, clock, x, word, due, turns - 1);
      MaximumIdleTurn(p, clock, Idle(p, clock, x, turns - 1), x.layer, word, due);
    }
  }

  // ---------- minimum waits ----------

  /** A minimum wait with more to come. */
  predicate MinimumInside(p: Profile, x: Matcher)
    requires MatcherOk(p, x)
  {
    WaitOf(p, x).Some? && WaitOf(p, x).value.MinimumWait? && |x.word| < |Reading(p, x).value.nodes|
  }

  /** Still waiting in the same layer, or the wait is over and the word still pending. */
  ghost predicate WaitingOrOver(p: Profile, clock: Clock, x: Matcher, layer: nat, word: seq<InputEvent>, due: nat) {
    && MatcherOk(p, x) && !x.paused && x.word == word && x.layer == layer && MinimumInside(p, x)
    && if x.waited then x.timer.None? && due <= clock(x.out.ticks) else Waiting(p, x, word, due)
  }

  lemma MinimumOver(p: Profile, clock: Clock, x: Matcher)
    requires MatcherOk(p, x) && !x.paused && !x.waited && MinimumInside(p, x) && x.timer.Some?
    ensures MatchTick(p, clock, x) ==
      if clock(x.out.ticks) < x.timer.value then ReadTick(x) else ReadTick(x).(waited := true, timer := None)
  {
    MinimumTick(p, clock, x);
  }

  lemma MinimumIdleTurn(p: Profile, clock: Clock, x: Matcher, layer: nat, word: seq<InputEvent>, due: nat)
    requires Monotone(clock) && WaitingOrOver(p, clock, x, layer, word, due)
    ensures WaitingOrOver(p, clock, MatchIterate(p, clock, x, None), layer, word, due)
  {
    IdleTurn(p, clock, x);
    if !x.waited {
      MinimumOver(p, clock, x);
    }
    SameWait(p, x, MatchIterate(p, clock, x, None));
  }

  lemma {:induction false} MinimumIdle(p: Profile, clock: Clock, x: Matcher, word: seq<InputEvent>, due: nat, turns: nat)
    requires Monotone(clock) && Waiting(p, x, word, due) && MinimumInside(p, x)
    ensures WaitingOrOver(p, clock, Idle(p, clock, x, turns), x.layer, word, due)
    decreases turns
  {
    if turns > 0 {
      MinimumIdle(p, clock, x, word, due, turns - 1);
      MinimumIdleTurn(p, clock, Idle(p, clock, x, turns - 1), x.layer, word, due);
    }
  }

  // ---------- a minimum wait at the end of a sequence ----------

  /** Sequence `s` is waiting out its last event, with `account` so far; or it has run, once. */
  ghost predicate WaitingOrFired(p: Profile, clock: Clock, x: Matcher, s: Sequence, word: seq<InputEvent>, due: nat,
                                 account: seq<Account>) {
    && MatcherOk(p, x) && !x.paused
    && if x.word == word then Waiting(p, x, word, due) && FinalWait(p, x, s) && x.account == account
       else Fresh(x) && due <= clock(x.out.ticks) && x.account == account + [Fired(s, Unreleased(s, word))]
  }

  predicate FinalWait(p: Profile, x: Matcher, s: Sequence)
    requires MatcherOk(p, x)
  {
    Reading(p, x) == Some(s) && |x.word| == |s.nodes| && EndsTimed(s) && IsMinimum(TimerAfter(s, |x.word|))
  }

  predicate Fresh(x: Matcher) {
    x.word == [] && !x.waited && x.timer.None?
  }

  lemma {:induction false} EmitEachFresh(clock: Clock, x: Matcher, binds: seq<Bind>)
    requires Fresh(x)
    ensures Fresh(EmitEach(clock, x, binds))
    decreases |binds|
  {
    if binds != [] {
      EmitEachFresh(clock, x, binds[..|binds| - 1]);
    }
  }

  lemma FireFresh(p: Profile, clock: Clock, x: Matcher, s: Sequence, events: seq<InputEvent>)
    requires MatcherOk(p, x) && !x.paused && SwapsBelow(s.binds, |p.layers|)
    ensures var r := Fire(clock, x, s, events);
      MatcherOk(p, r) && Fresh(r) && r.account == x.account + [Fired(s, events)] && x.out.ticks <= r.out.ticks
  {
    var x1 := Note(Reset(x), Fired(s, events));
    EmitEachOk(p, clock, x1, s.binds);
    EmitEachFresh(clock, x1, s.binds);
    EmitEachAdds(clock, x1, s.binds);
  }

  lemma FinalTick(p: Profile, clock: Clock, x: Matcher, s: Sequence)
    requires MatcherOk(p, x) && !x.paused && !x.waited && FinalWait(p, x, s) && x.timer.Some?
    ensures var z := MatchTick(p, clock, x);
      if clock(x.out.ticks) < x.timer.value then z == ReadTick(x)
      else Fresh(z) && z.account == x.account + [Fired(s, Unreleased(s, x.word))]
  {
    MinimumTick(p, clock, x);
    RuleBelow(p, x, Scan(Rules(p, x), x.word).value);
    FireFresh(p, clock, ReadTick(x), s, Unreleased(s, x.word));
  }

  /** A turn without a key runs the sequence exactly if its wait is over by the turn's clock. */
  lemma FinalIdleTurn(p: Profile, clock: Clock, x: Matcher, s: Sequence, word: seq<InputEvent>, due: nat,
                      account: seq<Account>)
    requires Monotone(clock) && WaitingOrFired(p, clock, x, s, word, due, account) && word != []
    ensures var r := MatchIterate(p, clock, x, None);
      WaitingOrFired(p, clock, r, s, word, due, account) && (r.word == word <==> clock(x.out.ticks) < due)
  {
    IdleTurn(p, clock, x);
    if x.word == word {
      FinalTick(p, clock, x, s);
      SameWait(p, x, MatchTick(p, clock, x).(layer := x.layer, word := word));
    }
  }

  lemma {:induction false} FinalIdle(p: Profile, clock: Clock, x: Matcher, s: Sequence, word: seq<InputEvent>,
                                     due: nat, turns: nat,
                                     y: Matcher)
    requires Monotone(clock) && Waiting(p, x, word, due) && FinalWait(p, x, s) && y == Idle(p, clock, x, turns)
    ensures WaitingOrFired(p, clock, y, s, word, due, x.account)
    decreases turns
  {
    if turns > 0 {
      var y1 := Idle(p, clock, x, turns - 1);
      FinalIdle(p, clock, x, s, word, due, turns - 1, y1);
      FinalIdleTurn(p, clock, y1, s, word, due, x.account);
    }
  }

  // ---------- the key ----------

  /** The turn takes `e` up as the next event of `word`, by sequence `j` of the layer. */
  ghost predicate GoesOn(p: Profile, clock: Clock, y: Matcher, layer: nat, word: seq<InputEvent>, j: nat, e: InputEvent)
    requires MatcherOk(p, y)
  {
    var z := MatchTick(p, clock, y);
    && z.word == word && z.layer == layer && !z.paused && !Blocked(p, z) && j < |Rules(p, z)|
    && var r := Advance(p, clock, z, j, e);
       MatchIterate(p, clock, y, Some(e)) == r.(out := Flush(clock, r.out))
  }

  /** The turn takes `e` up as the next event of `word` exactly if `inTime`; otherwise no longer word is pending after it. */
  ghost predicate Decides(p: Profile, clock: Clock, y: Matcher, layer: nat, word: seq<InputEvent>, j: nat,
                          e: InputEvent, inTime: bool) {
    && MatcherOk(p, y)
    && (GoesOn(p, clock, y, layer, word, j, e) <==> inTime)
    && (!inTime ==> |MatchIterate(p, clock, y, Some(e)).word| <= |word|)
  }

  lemma KeyGoesOn(p: Profile, clock: Clock, y: Matcher, j: nat, e: InputEvent)
    requires MatcherOk(p, y)
    requires var z := MatchTick(p, clock, y); !z.paused && !Blocked(p, z) && Scan(Rules(p, z), z.word + [e]) == Some(j)
    ensures GoesOn(p, clock, y, MatchTick(p, clock, y).layer, MatchTick(p, clock, y).word, j, e)
  {
  }

  lemma KeyBlocked(p: Profile, clock: Clock, y: Matcher, e: InputEvent)
    requires MatcherOk(p, y)
    requires var z := MatchTick(p, clock, y); !z.paused && Blocked(p, z)
    ensures |MatchIterate(p, clock, y, Some(e)).word| <= |MatchTick(p, clock, y).word|
  {
  }

  lemma MaximumKey(p: Profile, clock: Clock, x: Matcher, y: Matcher, word: seq<InputEvent>, due: nat, j: nat,
                   e: InputEvent)
    requires Waiting(p, x, word, due) && MaximumAfter(p, x)
    requires WaitingOrLate(p, clock, y, x.layer, word, due) && Scan(Rules(p, x), word + [e]) == Some(j)
    ensures Decides(p, clock, y, x.layer, word, j, e, clock(y.out.ticks) < due)
  {
    var z := MatchTick(p, clock, y);
    LateTick(p, clock, y);
    if y.word == word {
      SameWait(p, x, y);
      if clock(y.out.ticks) < due {
        EarlyTick(p, clock, y);
        SameWait(p, x, z);
        KeyGoesOn(p, clock, y, j, e);
      }
    }
  }

  lemma MinimumKey(p: Profile, clock: Clock, x: Matcher, y: Matcher, word: seq<InputEvent>, due: nat, j: nat,
                   e: InputEvent)
    requires Waiting(p, x, word, due) && MinimumInside(p, x)
    requires WaitingOrOver(p, clock, y, x.layer, word, due) && Scan(Rules(p, x), word + [e]) == Some(j)
    ensures Decides(p, clock, y, x.layer, word, j, e, due <= clock(y.out.ticks))
  {
    var z := MatchTick(p, clock, y);
    SameWait(p, x, y);
    if !y.waited {
      MinimumOver(p, clock, y);
    }
    SameWait(p, x, z);
    if due <= clock(y.out.ticks) {
      KeyGoesOn(p, clock, y, j, e);
    } else {
      KeyBlocked(p, clock, y, e);
    }
  }

  // ---------- on the mapper ----------

  /** Turns of the main loop that bring no key. */
  function IdleTurns(turns: nat): (ops: seq<Op>)
    ensures |ops| == turns && forall i :: 0 <= i < turns ==> ops[i] == Iterate(None)
  {
    seq(turns, _ => Iterate(None))
  }

  /** The turn that brings `e`, and then that many turns without a key. */
  ghost function After(clock: Clock, s: Sys, e: InputEvent, turns: nat): (r: Sys)
    requires SysOk(s)
    ensures SysOk(r)
  {
    Run(clock, Step(clock, s, Iterate(Some(e))), IdleTurns(turns))
  }

  lemma {:induction false} IdleIsRun(p: Profile, clock: Clock, x: Matcher, turns: nat)
    requires MatcherOk(p, x)
    ensures MatchRun(clock, MSys(p, x), IdleTurns(turns)) == MSys(p, Idle(p, clock, x, turns))
    decreases turns
  {
    if turns > 0 {
      IdleIsRun(p, clock, x, turns - 1);
      assert IdleTurns(turns)[..turns - 1] == IdleTurns(turns - 1);
    }
  }

  lemma TurnMatched(w: World, clock: Clock, s: Sys, m: MSys, key: Option<InputEvent>, x: Matcher) returns (w': World)
    requires Matched(w, s, m) && x == MatchIterate(m.profile, clock, m.matcher, key)
    ensures Matched(w', Step(clock, s, Iterate(key)), MSys(m.profile, x))
  {
    w' := SimStep(w, clock, s, m, Iterate(key));
  }

  lemma AfterMatched(w: World, clock: Clock, s: Sys, m: MSys, e: InputEvent, turns: nat, x: Matcher) returns (w': World)
    requires Matched(w, s, m) && x == MatchIterate(m.profile, clock, m.matcher, Some(e))
    ensures Matched(w', After(clock, s, e, turns), MSys(m.profile, Idle(m.profile, clock, x, turns)))
  {
    var w1 := TurnMatched(w, clock, s, m, Some(e), x);
    IdleIsRun(m.profile, clock, x, turns);
    w' := SimRun(w1, clock, Step(clock, s, Iterate(Some(e))), MSys(m.profile, x), IdleTurns(turns));
  }

  /** At the next turn event `e` goes on with sequence `i`, with a wait of `ms` behind it and no swap of the layer; after that
      `e'` would go on with sequence `j`. */
  ghost predicate TwoEvents(p: Profile, x: Matcher, i: nat, e: InputEvent, ms: nat, j: nat, e': InputEvent) {
    && WaitFollows(p, x, i, e, ms) && SwapOnRelease(p, x, Rules(p, x)[i], e).None?
    && Scan(Rules(p, x), x.word + [e] + [e']) == Some(j)
  }

  lemma WaitStarts(p: Profile, clock: Clock, x: Matcher, i: nat, e: InputEvent, ms: nat, r: Matcher)
    requires WaitFollows(p, x, i, e, ms) && SwapOnRelease(p, x, Rules(p, x)[i], e).None? && MatcherOk(p, r)
    requires var r0 := MatchEvent(p, clock, x, e); r == r0.(out := Flush(clock, r0.out))
    ensures Waiting(p, r, x.word + [e], ms + clock(x.out.ticks)) && r.layer == x.layer
    ensures WaitOf(p, r) == TimerAfter(Rules(p, x)[i], |x.word| + 1) && Reading(p, r) == Some(Rules(p, x)[i])
  {
    ArmedAdvance(p, clock, x, i, e, ms, MatchEvent(p, clock, x, e), None);
  }

  lemma MaximumWaitMatch(p: Profile, clock: Clock, x: Matcher, i: nat, e: InputEvent, ms: nat, turns: nat, j: nat,
                         e': InputEvent, r: Matcher)
    requires Monotone(clock) && TwoEvents(p, x, i, e, ms, j, e') && MatcherOk(p, r)
    requires var r0 := MatchEvent(p, clock, x, e); r == r0.(out := Flush(clock, r0.out))
    requires TimerAfter(Rules(p, x)[i], |x.word| + 1).value.MaximumWait?
    ensures var y := Idle(p, clock, r, turns);
      Decides(p, clock, y, x.layer, x.word + [e], j, e', clock(y.out.ticks) < ms + clock(x.out.ticks))
  {
    WaitStarts(p, clock, x, i, e, ms, r);
    MaximumIdle(p, clock, r, x.word + [e], ms + clock(x.out.ticks), turns);
    MaximumKey(p, clock, r, Idle(p, clock, r, turns), x.word + [e], ms + clock(x.out.ticks), j, e');
  }

  lemma MinimumWaitMatch(p: Profile, clock: Clock, x: Matcher, i: nat, e: InputEvent, ms: nat, turns: nat, j: nat,
                         e': InputEvent, r: Matcher)
    requires Monotone(clock) && TwoEvents(p, x, i, e, ms, j, e') && MatcherOk(p, r) && Acceptable(p)
    requires var r0 := MatchEvent(p, clock, x, e); r == r0.(out := Flush(clock, r0.out))
    requires TimerAfter(Rules(p, x)[i], |x.word| + 1).value.MinimumWait?
    ensures var y := Idle(p, clock, r, turns);
      Decides(p, clock, y, x.layer, x.word + [e], j, e', ms + clock(x.out.ticks) <= clock(y.out.ticks))
  {
    WaitStarts(p, clock, x, i, e, ms, r);
    Order.SharersSame(Rules(p, x), i, j, x.word + [e]);
    MinimumIdle(p, clock, r, x.word + [e], ms + clock(x.out.ticks), turns);
    MinimumKey(p, clock, r, Idle(p, clock, r, turns), x.word + [e], ms + clock(x.out.ticks), j, e');
  }

  /** After a maximum wait: the next key, however many turns later, goes on with the word exactly when the clock that its
      turn reads is below the reading at which the wait began plus the wait. */
  lemma MaximumWaitRun(w: World, clock: Clock, s: Sys, m: MSys, x: Matcher, i: nat, e: InputEvent, ms: nat, turns: nat,
                       j: nat, e': InputEvent) returns (w': World, y: Matcher)
    requires Monotone(clock) && Matched(w, s, m) && x == MatchTick(w.p, clock, m.matcher)
    requires TwoEvents(w.p, x, i, e, ms, j, e') && TimerAfter(Rules(w.p, x)[i], |x.word| + 1).value.MaximumWait?
    ensures var s' := After(clock, s, e, turns);
      && Matched(w', s', MSys(w.p, y))
      && Decides(w.p, clock, y, x.layer, x.word + [e], j, e', clock(s'.core.out.ticks) < ms + clock(x.out.ticks))
  {
    var r := MatchIterate(w.p, clock, m.matcher, Some(e));
    y := Idle(w.p, clock, r, turns);
    w' := AfterMatched(w, clock, s, m, e, turns, r);
    MaximumWaitMatch(w.p, clock, x, i, e, ms, turns, j, e', r);
  }

  /** After a minimum wait: exactly when that clock is at or above it. */
  lemma MinimumWaitRun(w: World, clock: Clock, s: Sys, m: MSys, x: Matcher, i: nat, e: InputEvent, ms: nat, turns: nat,
                       j: nat, e': InputEvent) returns (w': World, y: Matcher)
    requires Monotone(clock) && Matched(w, s, m) && x == MatchTick(w.p, clock, m.matcher)
    requires TwoEvents(w.p, x, i, e, ms, j, e') && TimerAfter(Rules(w.p, x)[i], |x.word| + 1).value.MinimumWait?
    ensures var s' := After(clock, s, e, turns);
      && Matched(w', s', MSys(w.p, y))
      && Decides(w.p, clock, y, x.layer, x.word + [e], j, e', ms + clock(x.out.ticks) <= clock(s'.core.out.ticks))
  {
    var r := MatchIterate(w.p, clock, m.matcher, Some(e));
    y := Idle(w.p, clock, r, turns);
    w' := AfterMatched(w, clock, s, m, e, turns, r);
    AcceptableCompiles(w.p);
    MinimumWaitMatch(w.p, clock, x, i, e, ms, turns, j, e', r);
  }

  /** The sequence is still waiting at `y`, or has run once; it has run exactly if the last turn's clock `now` is late enough. */
  ghost predicate RunsOnce(p: Profile, clock: Clock, s: Sequence, word: seq<InputEvent>, due: nat, account: seq<Account>,
                           now: nat, y: Matcher) {
    WaitingOrFired(p, clock, y, s, word, due, account) && (y.word == word <==> now < due)
  }

  /** Event `e` is the last of sequence `i`, which ends in a minimum wait of `ms`, and swaps no layer. */
  ghost predicate LastEvent(p: Profile, x: Matcher, i: nat, e: InputEvent, ms: nat) {
    && WaitFollows(p, x, i, e, ms) && SwapOnRelease(p, x, Rules(p, x)[i], e).None?
    && |x.word| + 1 == |Rules(p, x)[i].nodes| && TimerAfter(Rules(p, x)[i], |x.word| + 1).value.MinimumWait?
  }

  lemma FinalWaitMatch(p: Profile, clock: Clock, x: Matcher, i: nat, e: InputEvent, ms: nat, turns: nat, r: Matcher)
    requires Monotone(clock) && LastEvent(p, x, i, e, ms) && MatcherOk(p, r)
    requires var r0 := MatchEvent(p, clock, x, e); r == r0.(out := Flush(clock, r0.out))
    ensures RunsOnce(p, clock, Rules(p, x)[i], x.word + [e], ms + clock(x.out.ticks), r.account,
                     clock(Idle(p, clock, r, turns).out.ticks), Idle(p, clock, r, turns + 1))
  {
    var s, word, due, y := Rules(p, x)[i], x.word + [e], ms + clock(x.out.ticks), Idle(p, clock, r, turns);
    WaitStarts(p, clock, x, i, e, ms, r);
    FinalIdle(p, clock, r, s, word, due, turns, y);
    FinalIdleTurn(p, clock, y, s, word, due, r.account);
  }

  /** A sequence that ends in a minimum wait: it runs, once, at the first turn whose clock finds the wait over. */
  lemma FinalWaitRun(w: World, clock: Clock, s: Sys, m: MSys, x: Matcher, i: nat, e: InputEvent, ms: nat, turns: nat,
                     r: Matcher)
      returns (w': World, y: Matcher)
    requires Monotone(clock) && Matched(w, s, m) && x == MatchTick(w.p, clock, m.matcher) && r == MatchIterate(w.p, clock, m.matcher, Some(e))
    requires LastEvent(w.p, x, i, e, ms)
    ensures Matched(w', After(clock, s, e, turns + 1), MSys(w.p, y))
    ensures RunsOnce(w.p, clock, Rules(w.p, x)[i], x.word + [e], ms + clock(x.out.ticks),
                     r.account, clock(After(clock, s, e, turns).core.out.ticks), y)
  {
    y := Idle(w.p, clock, r, turns + 1);
    w' := AfterMatched(w, clock, s, m, e, turns, r);
    w' := AfterMatched(w, clock, s, m, e, turns + 1, r);
    FinalWaitMatch(w.p, clock, x, i, e, ms, turns, r);
  }

  /** What going on comes to: the sequence is complete and runs, or the longer word is pending. */
  lemma TakenUp(p: Profile, clock: Clock, y: Matcher, layer: nat, word: seq<InputEvent>, j: nat, e: InputEvent)
    requires MatcherOk(p, y) && GoesOn(p, clock, y, layer, word, j, e)
    ensures layer < |p.layers| && j < |ParseLayer(p.layers[layer])|
    ensures var s, r := ParseLayer(p.layers[layer])[j], MatchIterate(p, clock, y, Some(e));
      if IsComplete(s, word + [e]) then
        r.word == [] && r.account != [] && r.account[|r.account| - 1] == Fired(s, Unreleased(s, word + [e]))
      else
        (s.behavior == SequenceBehavior.Release ==> DeliverSwap(FindRemapping(p.layers[layer].basicRemappings, e)).None?) ==>
          r.word == word + [e]
  {
    var z := MatchTick(p, clock, y);
    var s := Rules(p, z)[j];
    if IsComplete(s, word + [e]) {
      var x1 := Reset(z);
      if s.behavior == SequenceBehavior.Release {
        PassOk(p, clock, Reset(z), e);
        x1 := Pass(p, clock, Reset(z), e);
      }
      RuleBelow(p, z, j);
      EmitEachOk(p, clock, Note(Reset(x1), Fired(s, Unreleased(s, word + [e]))), s.binds);
    }
  }

  /** The automaton is in the state of `word`. */
  ghost predicate Stands(w: World, s: Sys, word: seq<InputEvent>) {
    && s.core.layer < |w.labellings| && s.core.state < |w.labellings[s.core.layer].labels|
    && w.labellings[s.core.layer].labels[s.core.state].word == word
  }

  /** After the turn that brings `e` the automaton is in the state of the longer word exactly if the key was in time. */
  lemma StandsIfInTime(w: World, clock: Clock, s: Sys, y: Matcher, layer: nat, word: seq<InputEvent>, j: nat,
                       e: InputEvent,
                       inTime: bool) returns (w': World)
    requires Matched(w, s, MSys(w.p, y)) && Decides(w.p, clock, y, layer, word, j, e, inTime)
    requires layer < |w.p.layers| && j < |ParseLayer(w.p.layers[layer])| && !IsComplete(ParseLayer(w.p.layers[layer])[j], word + [e])
    requires ParseLayer(w.p.layers[layer])[j].behavior == SequenceBehavior.Release ==>
      DeliverSwap(FindRemapping(w.p.layers[layer].basicRemappings, e)).None?
    ensures var r := MatchIterate(w.p, clock, y, Some(e));
      && Matched(w', Step(clock, s, Iterate(Some(e))), MSys(w.p, r))
      && (Stands(w', Step(clock, s, Iterate(Some(e))), word + [e]) <==> inTime)
  {
    w' := TurnMatched(w, clock, s, MSys(w.p, y), Some(e), MatchIterate(w.p, clock, y, Some(e)));
    if inTime {
      TakenUp(w.p, clock, y, layer, word, j, e);
    }
    StandsMatched(w', Step(clock, s, Iterate(Some(e))), MSys(w.p, MatchIterate(w.p, clock, y, Some(e))), word + [e]);
  }

  lemma StandsMatched(w: World, s: Sys, m: MSys, word: seq<InputEvent>)
    requires Matched(w, s, m)
    ensures Stands(w, s, word) <==> m.matcher.word == word
  {
    var _, _, _ := LayerFacts(w, s.core, m.matcher);
  }
}
