/** The matcher only adds to its log, and its clock only moves on. */
module Growth {
  import opened Options
  import opened Profiles
  import opened Trie
  import opened Outputs
  import opened OutputQueue
  import opened Profiling
  import opened MapperRuns
  import opened Matching
  import Conservation

  ghost predicate Adds(a: Out, b: Out) {
    a.ticks <= b.ticks && a.log <= b.log
  }

  lemma {:induction false} BindsAdd(clock: Clock, out: Out, binds: seq<Bind>)
    ensures Adds(out, RunBinds(clock, out, binds))
    decreases |binds|
  {
    if binds != [] {
      BindsAdd(clock, out, binds[..|binds| - 1]);
    }
  }

  lemma PassAdds(p: Profile, clock: Clock, x: Matcher, e: InputEvent)
    requires MatcherOk(p, x)
    ensures Adds(x.out.(log := x.out.log + [Delivered(e)]), Pass(p, clock, x, e).out)
  {
    var remapping := FindRemapping(p.layers[x.layer].basicRemappings, e);
    if remapping.Some? {
      BindsAdd(clock, x.out.(log := x.out.log + [Delivered(e)]), remapping.value);
    }
  }

  lemma {:induction false} EmitEachAdds(clock: Clock, x: Matcher, binds: seq<Bind>)
    ensures Adds(x.out, EmitEach(clock, x, binds).out)
    decreases |binds|
  {
    if binds != [] {
      var x1, last := EmitEach(clock, x, binds[..|binds| - 1]), binds[|binds| - 1];
      EmitEachAdds(clock, x, binds[..|binds| - 1]);
      BindsAdd(clock, x1.out.(log := x1.out.log + [Emitted(last)]), [last]);
    }
  }

  lemma AdvanceAdds(p: Profile, clock: Clock, x: Matcher, m: nat, e: InputEvent)
    requires MatcherOk(p, x) && !x.paused && m < |Rules(p, x)|
    ensures Adds(x.out, Advance(p, clock, x, m, e).out)
  {
    var s, word := Rules(p, x)[m], x.word + [e];
    if IsComplete(s, word) {
      PassAdds(p, clock, Reset(x), e);
      var x1 := if s.behavior == SequenceBehavior.Release then Pass(p, clock, Reset(x), e) else Reset(x);
      EmitEachAdds(clock, Note(Reset(x1), Fired(s, Unreleased(s, word))), s.binds);
    } else if s.behavior == SequenceBehavior.Release {
      PassAdds(p, clock, Arm(clock, x.(word := word, waited := false), TimerAfter(s, |word|)), e);
    }
  }

  lemma GiveBackAdds(p: Profile, clock: Clock, x: Matcher, e: Option<InputEvent>)
    requires MatcherOk(p, x) && !x.paused && x.word != []
    ensures Adds(x.out.(log := x.out.log + [Delivered(x.word[0])]), GiveBack(p, clock, x, e).out)
  {
    PassOk(p, clock, Reset(x), x.word[0]);
    PassAdds(p, clock, Reset(x), x.word[0]);
    if e.Some? {
      PassAdds(p, clock, Pass(p, clock, Reset(x), x.word[0]), e.value);
    }
  }

  lemma {:induction false} AbandonAdds(p: Profile, clock: Clock, x: Matcher, e: Option<InputEvent>)
    requires MatcherOk(p, x) && !x.paused
    ensures Adds(x.out, Abandon(p, clock, x, e).out)
    decreases |x.word|, 1, 0
  {
    if x.waited {
    } else if Reading(p, x).Some? && Reading(p, x).value.behavior == SequenceBehavior.Default {
      GiveBackAdds(p, clock, x, e);
      AllAdd(p, clock, GiveBack(p, clock, x, e), x.word[1..]);
    } else if e.Some? {
      PassAdds(p, clock, Note(Reset(x), Dropped(HeldWord(p, x))), e.value);
    }
  }

  lemma {:induction false} EventAdds(p: Profile, clock: Clock, x: Matcher, e: InputEvent)
    requires MatcherOk(p, x)
    ensures Adds(x.out, MatchEvent(p, clock, x, e).out)
    decreases |x.word|, 2, 0
  {
    if !x.paused {
      var found := if Blocked(p, x) then None else Scan(Rules(p, x), x.word + [e]);
      if found.Some? {
        AdvanceAdds(p, clock, x, found.value, e);
      } else {
        AbandonAdds(p, clock, x, Some(e));
      }
    }
  }

  lemma {:induction false} AllAdd(p: Profile, clock: Clock, x: Matcher, events: seq<InputEvent>)
    requires MatcherOk(p, x) && !x.paused
    ensures Adds(x.out, MatchAll(p, clock, x, events).out)
    decreases |x.word| + |events|, 0, |events|
  {
    if events != [] {
      EventAdds(p, clock, x, events[0]);
      AllAdd(p, clock, MatchEvent(p, clock, x, events[0]), events[1..]);
    }
  }

  lemma ExpireAdds(p: Profile, clock: Clock, x: Matcher)
    requires MatcherOk(p, x) && !x.paused
    ensures Adds(x.out, Expire(p, clock, x).out)
  {
    if Reading(p, x).Some? {
      var s := Reading(p, x).value;
      AbandonAdds(p, clock, x, None);
      EmitEachAdds(clock, Note(Reset(x), Fired(s, Unreleased(s, x.word))), s.binds);
    }
  }

  lemma TickAdds(p: Profile, clock: Clock, x: Matcher)
    requires MatcherOk(p, x)
    ensures Adds(x.out, MatchTick(p, clock, x).out)
  {
    if x.timer.Some? && x.timer.value <= clock(x.out.ticks) {
      var x1 := x.(out := x.out.(ticks := x.out.ticks + 1));
      Conservation.ExpiredTick(p, clock, x, x1);
      ExpireAdds(p, clock, x1);
    }
  }

  lemma IterateAdds(p: Profile, clock: Clock, x: Matcher, key: Option<InputEvent>)
    requires MatcherOk(p, x)
    ensures Adds(x.out, MatchIterate(p, clock, x, key).out)
  {
    TickAdds(p, clock, x);
    if key.Some? {
      EventAdds(p, clock, MatchTick(p, clock, x), key.value);
    }
  }
}
