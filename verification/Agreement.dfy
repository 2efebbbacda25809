/** Which accepted profiles the mapper runs as the lists of sequences say: exactly those with compatible sequences. */
module Agreement {
  import opened Options
  import opened Profiles
  import opened Automata
  import StateMachine
  import opened Trie
  import opened Acceptance
  import opened Trails
  import opened Outputs
  import opened OutputQueue
  import opened MapperModel
  import opened Profiling
  import opened MapperRuns
  import opened Bounded
  import opened Matching
  import opened Refinement
  import opened Conservation
  import opened Histories
  import opened Transparency
  import opened Growth
  import opened Order
  import Divergence
  import EndToEnd

  // ---------- what the mapper shows ----------

  lemma EmitShows(clock: Clock, c: Core, bind: Bind)
    ensures Visible(EmitBind(clock, c, bind).out.log) == Visible(c.out.log) + [Emitted(bind)]
  {
    LogVisible(c.out.log, Emitted(bind));
    BindsVisible(clock, c.out.(log := c.out.log + [Emitted(bind)]), [bind]);
  }

  /** Running the binds of a sequence shows the binds. */
  lemma {:induction false} RunEmits(cp: Compiled, clock: Clock, c: Core, binds: seq<Bind>, prev: Option<InputEvent>,
                                    r: Core)
    requires Fit(cp, c) && !c.paused && OutputsBelow(EmitAll(binds), |cp.states|)
    requires r == RunOutputs(cp, clock, c, EmitAll(binds), prev)
    ensures Visible(r.out.log) == Visible(c.out.log) + EmittedAll(binds)
    decreases |binds|
  {
    if binds != [] {
      var before := binds[..|binds| - 1];
      RunEmitsNext(cp, clock, c, binds, prev);
      var r1 := RunOutputs(cp, clock, c, EmitAll(before), prev);
      RunEmits(cp, clock, c, before, prev, r1);
      EmitShows(clock, r1, binds[|binds| - 1]);
    }
  }

  /** The mapper has followed `word` from HOME of the layer and shown nothing. */
  ghost predicate Unseen(s: Sys, layer: nat, word: seq<InputEvent>) {
    && SysFits(s) && s.core.layer == layer && !s.core.paused && s.core.timer.None?
    && s.core.out.queue == [] && Visible(s.core.out.log) == []
    && Trail(s.cp.states[layer], HOME_STATE_IDX, word) == Some(s.core.state)
  }

  lemma PlainApply(cp: Compiled, clock: Clock, c: Core, t: Transition, prev: Option<InputEvent>, depth: nat, c1: Core)
    requires Fit(cp, c) && !c.paused && Applies(cp, c, t) && t.timerMs.None? && NoReplay(t.outputs)
    requires c1 == c.(state := t.newState, timer := None)
    ensures CoreOk(cp, c1) && ApplyWithin(cp, clock, c, t, prev, depth) == Some(RunOutputs(cp, clock, c1, t.outputs, prev))
  {
    assert Enter(clock, c, t) == c1;
    NoReplayNoRedo(t.outputs, prev);
  }

  lemma PlainProcess(cp: Compiled, clock: Clock, c: Core, e: InputEvent, t: Transition, c1: Core)
    requires Fit(cp, c) && !c.paused && c.timer.None? && t == Chosen(cp, c, e) && t.timerMs.None? && NoReplay(t.outputs)
    requires c1 == c.(calls := c.calls + 1, state := t.newState)
    ensures CoreOk(cp, c1) && OutputsBelow(t.outputs, |cp.states|)
    ensures ProcessWithin(cp, clock, c, e, 1) == Some(RunOutputs(cp, clock, c1, t.outputs, Some(e)))
  {
    ChosenApplies(cp, c, e);
    PlainApply(cp, clock, c.(calls := c.calls + 1), t, Some(e), 0, c1);
  }

  /** The turn of a key whose edge arms no timer and replays nothing. */
  lemma PlainKey(cp: Compiled, clock: Clock, c: Core, e: InputEvent, t: Transition, c1: Core)
    requires Fit(cp, c) && !c.paused && c.timer.None? && t == Chosen(cp, c, e) && t.timerMs.None? && NoReplay(t.outputs)
    requires c1 == c.(calls := c.calls + 1, state := t.newState)
    ensures CoreOk(cp, c1) && OutputsBelow(t.outputs, |cp.states|)
    ensures var c2 := RunOutputs(cp, clock, c1, t.outputs, Some(e));
      IterateWithin(cp, clock, c, Some(e), 1) == Some(c2.(out := Flush(clock, c2.out)))
  {
    PlainProcess(cp, clock, c, e, t, c1);
    assert TickWithin(cp, clock, c, 1) == Some(c);
  }

  lemma SilentKey(clock: Clock, s: Sys, layer: nat, rest: seq<InputEvent>, i: nat, rule: Sequence) returns (r: Sys)
    requires i < |rest| && Unseen(s, layer, rest[..i]) && SilentStep(s.cp.states[layer], rest, i, rule)
    requires i + 1 < |rest| || rule.binds == []
    ensures StepWithin(clock, s, Iterate(Some(rest[i])), 1) == Some(r) && r.cp == s.cp && Unseen(r, layer, rest[..i + 1])
  {
    var c, t := s.core, Chosen(s.cp, s.core, rest[i]);
    var c1 := c.(calls := c.calls + 1, state := t.newState);
    PlainKey(s.cp, clock, c, rest[i], t, c1);
    r := s.(core := c1);
  }

  lemma LastSilentKey(clock: Clock, s: Sys, layer: nat, rest: seq<InputEvent>, i: nat, rule: Sequence) returns (r: Sys)
    requires i + 1 == |rest| && Unseen(s, layer, rest[..i]) && SilentStep(s.cp.states[layer], rest, i, rule)
    ensures StepWithin(clock, s, Iterate(Some(rest[i])), 1) == Some(r) && Visible(r.core.out.log) == EmittedAll(rule.binds)
  {
    var c, t := s.core, Chosen(s.cp, s.core, rest[i]);
    var c1 := c.(calls := c.calls + 1, state := t.newState);
    assert t.outputs == EmitAll(rule.binds);
    PlainKey(s.cp, clock, c, rest[i], t, c1);
    var c2 := RunOutputs(s.cp, clock, c1, t.outputs, Some(rest[i]));
    RunEmits(s.cp, clock, c1, rule.binds, Some(rest[i]), c2);
    FlushExact(clock, c2.out);
    assert [] + EmittedAll(rule.binds) == EmittedAll(rule.binds);
    r := s.(core := c2.(out := Flush(clock, c2.out)));
  }

  // ---------- what the matcher shows ----------

  /** The matcher has `word` pending in the layer and has shown nothing. */
  ghost predicate Pending(p: Profile, x: Matcher, layer: nat, word: seq<InputEvent>) {
    && MatcherOk(p, x) && !x.paused && !x.waited && x.timer.None? && x.layer == layer && x.word == word
    && Visible(x.out.log) == [] && (word != [] ==> Scan(Rules(p, x), word).Some?)
  }

  /** It has shown nothing, or some event has been translated. */
  ghost predicate NothingButEvents(p: Profile, x: Matcher, layer: nat, word: seq<InputEvent>) {
    MatcherOk(p, x) && !x.paused && (Pending(p, x, layer, word) || DeliveredIn(x.out.log) != [])
  }

  lemma {:induction false} DeliveredGrows(a: seq<LogEntry>, b: seq<LogEntry>)
    requires a <= b
    ensures DeliveredIn(a) <= DeliveredIn(b)
  {
    assert b == a + b[|a|..];
    EndToEnd.DeliveredAppend(a, b[|a|..]);
  }

  lemma StillDelivered(a: Out, b: Out)
    requires Adds(a, b) && DeliveredIn(a.log) != []
    ensures DeliveredIn(b.log) != []
  {
    DeliveredGrows(a.log, b.log);
  }

  lemma PassDelivers(p: Profile, clock: Clock, x: Matcher, e: InputEvent)
    requires MatcherOk(p, x)
    ensures DeliveredIn(Pass(p, clock, x, e).out.log) != []
  {
    var out := x.out.(log := x.out.log + [Delivered(e)]);
    PassAdds(p, clock, x, e);
    DeliveredNote(x.out.log, Delivered(e));
    StillDelivered(out, Pass(p, clock, x, e).out);
  }

  /** Giving up translates an event: the current one, or the first one held back. */
  lemma AbandonDelivers(p: Profile, clock: Clock, x: Matcher, e: InputEvent)
    requires MatcherOk(p, x) && !x.paused && !x.waited
    ensures DeliveredIn(Abandon(p, clock, x, Some(e)).out.log) != []
  {
    if GivesBack(p, x) {
      var x1 := GiveBack(p, clock, x, Some(e));
      PassDelivers(p, clock, Reset(x), x.word[0]);
      PassOk(p, clock, Reset(x), x.word[0]);
      PassDelivers(p, clock, Pass(p, clock, Reset(x), x.word[0]), e);
      AllAdd(p, clock, x1, x.word[1..]);
      StillDelivered(x1.out, Abandon(p, clock, x, Some(e)).out);
    } else {
      PassDelivers(p, clock, Note(Reset(x), Dropped(HeldWord(p, x))), e);
    }
  }

  /** No sequence of the layer ends anywhere along `word`. */
  predicate NoneEnds(seqs: seq<Sequence>, word: seq<InputEvent>) {
    forall q :: 0 <= q < |seqs| && seqs[q].nodes != [] ==> !(Word(seqs[q]) <= word)
  }

  lemma AdvancePends(p: Profile, clock: Clock, x: Matcher, layer: nat, word: seq<InputEvent>, m: nat, e: InputEvent)
    requires Pending(p, x, layer, word) && UntimedLayer(Rules(p, x)) && m < |Rules(p, x)|
    requires word + [e] <= Word(Rules(p, x)[m]) && |word| + 1 < |Rules(p, x)[m].nodes|
    ensures NothingButEvents(p, Advance(p, clock, x, m, e), layer, word + [e])
  {
    var s := Rules(p, x)[m];
    assert TimerAfter(s, |word| + 1).None?;
    var x1 := Arm(clock, x.(word := word + [e], waited := false), None);
    if s.behavior == SequenceBehavior.Release {
      PassOk(p, clock, x1, e);
      PassDelivers(p, clock, x1, e);
    }
  }

  lemma KeyPends(p: Profile, clock: Clock, x: Matcher, layer: nat, word: seq<InputEvent>, e: InputEvent)
    requires Pending(p, x, layer, word) && UntimedLayer(Rules(p, x)) && NoneEnds(Rules(p, x), word + [e])
    ensures NothingButEvents(p, MatchEvent(p, clock, x, e), layer, word + [e])
  {
    var seqs := Rules(p, x);
    assert !Blocked(p, x);
    var found := Scan(seqs, word + [e]);
    if found.Some? {
      var m := found.value;
      assert Word(seqs[m]) == word + [e] || |word| + 1 < |seqs[m].nodes|;
      AdvancePends(p, clock, x, layer, word, m, e);
    } else {
      AbandonDelivers(p, clock, x, e);
    }
  }

  lemma TurnPends(p: Profile, clock: Clock, x: Matcher, layer: nat, word: seq<InputEvent>, e: InputEvent)
    requires NothingButEvents(p, x, layer, word) && layer < |p.layers|
    requires UntimedLayer(ParseLayer(p.layers[layer])) && NoneEnds(ParseLayer(p.layers[layer]), word + [e])
    ensures NothingButEvents(p, MatchIterate(p, clock, x, Some(e)), layer, word + [e])
  {
    if Pending(p, x, layer, word) {
      KeyPends(p, clock, x, layer, word, e);
      FlushExact(clock, MatchEvent(p, clock, x, e).out);
    } else {
      IterateAdds(p, clock, x, Some(e));
      StillDelivered(x.out, MatchIterate(p, clock, x, Some(e)).out);
    }
  }

  // ---------- both, on the same keys ----------

  /** A layer change, and then the keys of `word`. */
  function Trial(layer: nat, word: seq<InputEvent>): (ops: seq<Op>)
    ensures KeysAndLayers(ops) && FormedOps(ops) && OpsFormed(ops)
  {
    if word == [] then [ChangeLayer(layer)] else Trial(layer, word[..|word| - 1]) + [Iterate(Some(word[|word| - 1]))]
  }

  lemma TrialNext(layer: nat, rest: seq<InputEvent>, i: nat)
    requires i < |rest|
    ensures Trial(layer, rest[..i + 1]) == Trial(layer, rest[..i]) + [Iterate(Some(rest[i]))]
  {
    assert rest[..i + 1][..i] == rest[..i];
  }

  /** A run of the mapper from the start; None if some call nests deeper than `depth`. */
  ghost function RunFrom(p: Profile, clock: Clock, ops: seq<Op>, depth: nat): (r: Option<Sys>)
    requires WellFormed(p) && CompileProfile(p).Some? && OpsFormed(ops)
    ensures r.Some? ==> SysFits(r.value)
  {
    StartFits(p);
    RunWithin(clock, StartMapper(p), ops, depth)
  }

  lemma RunFromNext(p: Profile, clock: Clock, ops: seq<Op>, op: Op, depth: nat, s: Sys)
    requires WellFormed(p) && CompileProfile(p).Some? && OpsFormed(ops) && OpFormed(op) && RunFrom(p, clock, ops, depth) == Some(s)
    ensures OpsFormed(ops + [op]) && RunFrom(p, clock, ops + [op], depth) == StepWithin(clock, s, op, depth)
  {
    assert (ops + [op])[..|ops|] == ops;
  }

  lemma TrialStarts(p: Profile, clock: Clock, layer: nat) returns (s: Sys)
    requires WellFormed(p) && CompileProfile(p).Some? && layer < |p.layers|
    ensures RunFrom(p, clock, Trial(layer, []), 1) == Some(s) && s.cp == CompileProfile(p).value && Unseen(s, layer, [])
  {
    StartFits(p);
    var start := StartMapper(p);
    assert [] + [ChangeLayer(layer)] == Trial(layer, []);
    RunFromNext(p, clock, [], ChangeLayer(layer), 1, start);
    SetLayerFits(start, layer);
    s := SetLayer(start, layer);
  }

  lemma {:induction false} TrialUnseen(p: Profile, clock: Clock, layer: nat, rest: seq<InputEvent>, i: nat,
                                       rule: Sequence) returns (s: Sys)
    requires WellFormed(p) && CompileProfile(p).Some? && layer < |p.layers|
    requires SilentPath(CompileProfile(p).value.states[layer], rest, rule) && (i < |rest| || (i == |rest| && rule.binds == []))
    ensures RunFrom(p, clock, Trial(layer, rest[..i]), 1) == Some(s) && s.cp == CompileProfile(p).value && Unseen(s, layer, rest[..i])
    decreases i
  {
    if i == 0 {
      assert rest[..0] == [];
      s := TrialStarts(p, clock, layer);
    } else {
      var s1 := TrialUnseen(p, clock, layer, rest, i - 1, rule);
      TrialNext(layer, rest, i - 1);
      RunFromNext(p, clock, Trial(layer, rest[..i - 1]), Iterate(Some(rest[i - 1])), 1, s1);
      assert SilentStep(s1.cp.states[layer], rest, i - 1, rule);
      s := SilentKey(clock, s1, layer, rest, i - 1, rule);
    }
  }

  /** The mapper answers the keys of a silent path with the binds, and with nothing else. */
  lemma MapperShows(p: Profile, clock: Clock, layer: nat, rest: seq<InputEvent>, rule: Sequence) returns (s: Sys)
    requires WellFormed(p) && CompileProfile(p).Some? && layer < |p.layers|
    requires SilentPath(CompileProfile(p).value.states[layer], rest, rule)
    ensures RunFrom(p, clock, Trial(layer, rest), 1) == Some(s) && Visible(s.core.out.log) == EmittedAll(rule.binds)
  {
    var i := |rest| - 1;
    var s1 := TrialUnseen(p, clock, layer, rest, i, rule);
    TrialNext(layer, rest, i);
    assert rest[..i + 1] == rest;
    RunFromNext(p, clock, Trial(layer, rest[..i]), Iterate(Some(rest[i])), 1, s1);
    assert SilentStep(s1.cp.states[layer], rest, i, rule);
    s := LastSilentKey(clock, s1, layer, rest, i, rule);
  }

  lemma NoneEndsBefore(seqs: seq<Sequence>, word: seq<InputEvent>, e: InputEvent)
    requires NoneEnds(seqs, word + [e])
    ensures NoneEnds(seqs, word)
  {
    forall q | 0 <= q < |seqs| && seqs[q].nodes != []
      ensures !(Word(seqs[q]) <= word)
    {
      assert word <= word + [e];
    }
  }

  lemma MatcherStarts(p: Profile, clock: Clock, layer: nat)
    requires WellFormed(p) && layer < |p.layers|
    ensures var m := MatchRun(clock, StartMatcher(p), Trial(layer, [])); m.profile == p && Pending(p, m.matcher, layer, [])
  {
    assert [] + [ChangeLayer(layer)] == Trial(layer, []);
    MatchRunNext(clock, StartMatcher(p), [], ChangeLayer(layer));
  }

  /** The matcher runs `p`, and what it shows after `word` is as it should be. */
  ghost predicate Shows(p: Profile, layer: nat, word: seq<InputEvent>, m: MSys) {
    m.profile == p && NothingButEvents(p, m.matcher, layer, word)
  }

  lemma MatcherShowsNext(p: Profile, clock: Clock, layer: nat, word: seq<InputEvent>, before: seq<InputEvent>,
                         e: InputEvent, m: MSys)
    requires WellFormed(p) && layer < |p.layers| && Shows(p, layer, before, m) && word == before + [e]
    requires UntimedLayer(ParseLayer(p.layers[layer])) && NoneEnds(ParseLayer(p.layers[layer]), word)
    ensures Shows(p, layer, word, MatchStep(clock, m, Iterate(Some(e))))
  {
    TurnPends(p, clock, m.matcher, layer, before, e);
  }

  lemma MatcherTrial(p: Profile, clock: Clock, layer: nat, word: seq<InputEvent>, before: seq<InputEvent>, e: InputEvent)
    requires WellFormed(p) && word != [] && before == word[..|word| - 1] && e == word[|word| - 1]
    ensures MatchRun(clock, StartMatcher(p), Trial(layer, word)) ==
      MatchStep(clock, MatchRun(clock, StartMatcher(p), Trial(layer, before)), Iterate(Some(e)))
  {
    MatchRunNext(clock, StartMatcher(p), Trial(layer, before), Iterate(Some(e)));
  }

  /** On the same keys the matcher shows nothing, or translates an event. */
  lemma {:induction false} MatcherShows(p: Profile, clock: Clock, layer: nat, word: seq<InputEvent>)
    requires WellFormed(p) && layer < |p.layers|
    requires UntimedLayer(ParseLayer(p.layers[layer])) && NoneEnds(ParseLayer(p.layers[layer]), word)
    ensures Shows(p, layer, word, MatchRun(clock, StartMatcher(p), Trial(layer, word)))
    decreases |word|
  {
    if word == [] {
      MatcherStarts(p, clock, layer);
    } else {
      var before, e := word[..|word| - 1], word[|word| - 1];
      assert word == before + [e];
      NoneEndsBefore(ParseLayer(p.layers[layer]), before, e);
      MatcherShows(p, clock, layer, before);
      MatcherShowsNext(p, clock, layer, word, before, e, MatchRun(clock, StartMatcher(p), Trial(layer, before)));
      MatcherTrial(p, clock, layer, word, before, e);
    }
  }

  /** A log that shows binds only and one that shows nothing or some translated event are not the same. */
  lemma ShownApart(mapper: seq<LogEntry>, matcher: seq<LogEntry>, binds: seq<Bind>)
    requires Visible(mapper) == EmittedAll(binds) && binds != []
    requires Visible(matcher) == [] || DeliveredIn(matcher) != []
    ensures Visible(mapper) != Visible(matcher)
  {
    EndToEnd.BindsDeliverNone(binds);
    EndToEnd.VisibleDelivers(matcher);
  }

  // ---------- agreement ----------

  /** The run of the mapper ends, with the outputs of the reference matcher. */
  ghost predicate Agree(p: Profile, clock: Clock, ops: seq<Op>)
    requires WellFormed(p) && CompileProfile(p).Some? && KeysAndLayers(ops)
  {
    exists depth: nat {:trigger RunFrom(p, clock, ops, depth)} ::
      RunFrom(p, clock, ops, depth).Some? &&
      RunFrom(p, clock, ops, depth).value.core.out == MatchRun(clock, StartMatcher(p), ops).matcher.out
  }

  /** The run of the mapper ends, and its log shows other translations and binds than the matcher's. */
  ghost predicate Differ(p: Profile, clock: Clock, ops: seq<Op>, depth: nat)
    requires WellFormed(p) && CompileProfile(p).Some? && KeysAndLayers(ops)
  {
    && RunFrom(p, clock, ops, depth).Some?
    && Visible(RunFrom(p, clock, ops, depth).value.core.out.log) != Visible(MatchRun(clock, StartMatcher(p), ops).matcher.out.log)
  }

  lemma DifferNotAgree(p: Profile, clock: Clock, ops: seq<Op>, depth: nat)
    requires WellFormed(p) && CompileProfile(p).Some? && KeysAndLayers(ops) && Differ(p, clock, ops, depth)
    ensures !Agree(p, clock, ops)
  {
    StartFits(p);
    forall d: nat | RunFrom(p, clock, ops, d).Some?
      ensures RunFrom(p, clock, ops, d) == RunFrom(p, clock, ops, depth)
    {
      if d <= depth {
        DeeperRun(clock, StartMapper(p), ops, d, depth);
      } else {
        DeeperRun(clock, StartMapper(p), ops, depth, d);
      }
    }
  }

  lemma SoundAgree(p: Profile, clock: Clock, ops: seq<Op>)
    requires Sound(p) && CompileProfile(p).Some? && KeysAndLayers(ops)
    ensures Agree(p, clock, ops)
  {
    MapperRefinesMatcher(p, clock, ops);
    var depth := RunBound(clock, StartMapper(p), ops);
    assert RunFrom(p, clock, ops, depth) == Some(Run(clock, StartMapper(p), ops));
  }

  /** Untimed sequences are incompatible only when a Default one goes on from where an earlier one is complete. */
  lemma IncompatibleGoesOn(a: Sequence, b: Sequence)
    requires Untimed(a) && Untimed(b) && !Compatible(a, b)
    ensures a.nodes != [] && Word(a) < Word(b) && b.behavior == SequenceBehavior.Default
  {
    assert TimersAgree(a, b);
    assert !EndsTimed(a) && !EndsTimed(b);
  }

  lemma LayerCompilation(p: Profile, layer: nat) returns (b: Build)
    requires WellFormed(p) && CompileProfile(p).Some? && layer < |p.layers|
    ensures StateMachine.CompilePrefix(ParseLayer(p.layers[layer]), |ParseLayer(p.layers[layer])|) == Some(b)
    ensures layer < |CompileProfile(p).value.states| && b.states == CompileProfile(p).value.states[layer]
  {
    var seqs, cp := ParseLayer(p.layers[layer]), CompileProfile(p).value;
    assert CompileLayer(p.layers[layer]) == Some((cp.states[layer], cp.basics[layer]));
    b := StateMachine.CompilePrefix(seqs, |seqs|).value;
  }

  // ---------- incompatible sequences ----------

  /** Edges only carry key codes below the bound, and HOME falls back as it always does. */
  ghost predicate EdgesBelow(b: Build, bound: nat) {
    && |b.states| > 0 && b.states[HOME_STATE_IDX].fallback == HOME_STATE.fallback
    && forall i, e :: 0 <= i < |b.states| && e in b.states[i].edges ==> CodeOf(e) < bound
  }

  lemma NodeBelow(b: Build, s: Sequence, k: nat, cur: nat, bound: nat)
    requires StateMachine.GoesIn(b, s, k, cur) && EdgesBelow(b, bound) && CodeOf(s.nodes[k].event) < bound
    ensures EdgesBelow(StateMachine.InsertNode(b, s, k, cur).value.0, bound)
  {
  }

  lemma {:induction false} LayerBelow(seqs: seq<Sequence>, b: Build)
    requires StateMachine.CompilePrefix(seqs, |seqs|) == Some(b)
    ensures EdgesBelow(b, RulesBound(seqs))
  {
    var inv := (b: Build) => EdgesBelow(b, RulesBound(seqs));
    forall m | 0 <= m < |seqs|
      ensures StateMachine.Keeps(seqs[m], inv)
    {
      forall b: Build, k: nat, cur: nat | StateMachine.GoesIn(b, seqs[m], k, cur) && inv(b)
        ensures inv(StateMachine.InsertNode(b, seqs[m], k, cur).value.0)
      {
        assert CodeOf(Word(seqs[m])[k]) < RulesBound(seqs);
        NodeBelow(b, seqs[m], k, cur, RulesBound(seqs));
      }
    }
    StateMachine.CompileKeeps(seqs, |seqs|, inv);
  }

  /** No edge of the layer's automaton carries the fresh key, and HOME falls back as it always does. */
  lemma {:induction false} FreshAtHome(seqs: seq<Sequence>, b: Build)
    requires StateMachine.CompilePrefix(seqs, |seqs|) == Some(b)
    ensures |b.states| > 0 && FreshKey(seqs) !in b.states[HOME_STATE_IDX].edges
    ensures b.states[HOME_STATE_IDX].fallback == HOME_STATE.fallback
  {
    LayerBelow(seqs, b);
    assert CodeOf(FreshKey(seqs)) == RulesBound(seqs);
  }

  /** At HOME a key that has no edge is translated. */
  lemma StrayKey(clock: Clock, s: Sys, layer: nat, word: seq<InputEvent>, e: InputEvent) returns (r: Sys)
    requires Unseen(s, layer, word) && s.core.state == HOME_STATE_IDX
    requires e !in s.cp.states[layer][HOME_STATE_IDX].edges
    requires s.cp.states[layer][HOME_STATE_IDX].fallback == HOME_STATE.fallback
    ensures StepWithin(clock, s, Iterate(Some(e)), 1) == Some(r) && Visible(r.core.out.log) == [Delivered(e)]
  {
    var c, t := s.core, HOME_STATE.fallback;
    var c1 := c.(calls := c.calls + 1, state := t.newState);
    PlainKey(s.cp, clock, c, e, t, c1);
    var c2 := RunOutputs(s.cp, clock, c1, t.outputs, Some(e));
    TranslationShows(s.cp, clock, c1, e, c2);
    FlushExact(clock, c2.out);
    r := s.(core := c2.(out := Flush(clock, c2.out)));
  }

  lemma TranslationShows(cp: Compiled, clock: Clock, c: Core, e: InputEvent, r: Core)
    requires Fit(cp, c) && !c.paused && OutputsBelow(HOME_STATE.fallback.outputs, |cp.states|) && Visible(c.out.log) == []
    requires r == RunOutputs(cp, clock, c, HOME_STATE.fallback.outputs, Some(e))
    ensures Visible(r.out.log) == [Delivered(e)]
  {
    assert HOME_STATE.fallback.outputs[..0] == [];
    assert r == Deliver(cp, clock, c, e);
    DeliverVisible(clock, c.out, e, Remapping(cp, c.layer, e));
  }

  /** The mapper answers the keys of a silent path without binds with nothing, and a fresh key after them with the key. */
  lemma MapperPasses(p: Profile, clock: Clock, layer: nat, rest: seq<InputEvent>, rule: Sequence, e: InputEvent)
      returns (s: Sys)
    requires WellFormed(p) && CompileProfile(p).Some? && layer < |p.layers| && rule.binds == []
    requires SilentPath(CompileProfile(p).value.states[layer], rest, rule)
    requires e == FreshKey(ParseLayer(p.layers[layer]))
    ensures RunFrom(p, clock, Trial(layer, rest + [e]), 1) == Some(s) && Visible(s.core.out.log) == [Delivered(e)]
  {
    var b := LayerCompilation(p, layer);
    FreshAtHome(ParseLayer(p.layers[layer]), b);
    var s1 := TrialUnseen(p, clock, layer, rest, |rest|, rule);
    assert rest[..|rest|] == rest && (rest + [e])[..|rest|] == rest;
    RunFromNext(p, clock, Trial(layer, rest), Iterate(Some(e)), 1, s1);
    s := StrayKey(clock, s1, layer, rest, e);
  }

  lemma AbandonGivesBack(p: Profile, clock: Clock, x: Matcher, e: InputEvent, log: seq<LogEntry>)
    requires MatcherOk(p, x) && !x.paused && GivesBack(p, x) && log == x.out.log + [Delivered(x.word[0])]
    ensures log <= Abandon(p, clock, x, Some(e)).out.log
  {
    var x1 := GiveBack(p, clock, x, Some(e));
    GiveBackAdds(p, clock, x, Some(e));
    AllAdd(p, clock, x1, x.word[1..]);
    assert Abandon(p, clock, x, Some(e)) == MatchAll(p, clock, x1, x.word[1..]);
  }

  /** The matcher gives a Default word back, first event first. */
  lemma MatcherGivesBack(p: Profile, clock: Clock, x: Matcher, layer: nat, word: seq<InputEvent>, e: InputEvent)
    requires Pending(p, x, layer, word) && GivesBack(p, x) && Scan(Rules(p, x), word + [e]).None?
    ensures [word[0]] <= DeliveredIn(MatchIterate(p, clock, x, Some(e)).out.log)
  {
    var r := MatchEvent(p, clock, x, e);
    assert r == Abandon(p, clock, x, Some(e));
    var log := x.out.log + [Delivered(word[0])];
    AbandonGivesBack(p, clock, x, e, log);
    EndToEnd.VisibleDelivers(x.out.log);
    DeliveredNote(x.out.log, Delivered(word[0]));
    DeliveredGrows(log, r.out.log);
    FlushExact(clock, r.out);
  }

  /** Where all readers of the pending word are Default sequences, a fresh key makes it come back. */
  lemma FreshKeyGivesBack(p: Profile, clock: Clock, m: MSys, layer: nat, word: seq<InputEvent>, e: InputEvent, r: MSys)
    requires layer < |p.layers| && Shows(p, layer, word, m) && word != [] && DeliveredIn(m.matcher.out.log) == []
    requires e == FreshKey(ParseLayer(p.layers[layer])) && r == MatchStep(clock, m, Iterate(Some(e)))
    requires UntimedLayer(ParseLayer(p.layers[layer])) && AllDefault(ParseLayer(p.layers[layer]), word)
    ensures [word[0]] <= DeliveredIn(r.matcher.out.log)
  {
    FreshKeyFits(ParseLayer(p.layers[layer]), word);
    MatcherGivesBack(p, clock, m.matcher, layer, word, e);
  }

  /** Whoever starts with `word` is a Default sequence. */
  predicate AllDefault(seqs: seq<Sequence>, word: seq<InputEvent>) {
    forall q :: 0 <= q < |seqs| && word <= Word(seqs[q]) ==> seqs[q].behavior == SequenceBehavior.Default
  }

  lemma DeliveredApart(mapper: seq<LogEntry>, matcher: seq<LogEntry>, a: InputEvent, e: InputEvent)
    requires Visible(mapper) == [Delivered(e)] && [a] <= DeliveredIn(matcher) && a != e
    ensures Visible(mapper) != Visible(matcher)
  {
    EndToEnd.VisibleDelivers(mapper);
    EndToEnd.VisibleDelivers(matcher);
    var shown: seq<LogEntry> := [Delivered(e)];
    assert [a][0] == DeliveredIn(matcher)[0];
    assert shown[..0] == [];
    assert DeliveredIn(shown) == [e];
  }

  /** A silent path without binds: the keys alone, or a fresh key behind them, tell the mapper from the lists. */
  lemma SilentDiffer(p: Profile, clock: Clock, layer: nat, rest: seq<InputEvent>, rule: Sequence) returns (ops: seq<Op>)
    requires WellFormed(p) && CompileProfile(p).Some? && layer < |p.layers| && rule.binds == []
    requires SilentPath(CompileProfile(p).value.states[layer], rest, rule)
    requires UntimedLayer(ParseLayer(p.layers[layer])) && NoneEnds(ParseLayer(p.layers[layer]), rest)
    requires AllDefault(ParseLayer(p.layers[layer]), rest) && CodeOf(rest[0]) < RulesBound(ParseLayer(p.layers[layer]))
    ensures KeysAndLayers(ops) && Differ(p, clock, ops, 1)
  {
    var e, m := FreshKey(ParseLayer(p.layers[layer])), MatchRun(clock, StartMatcher(p), Trial(layer, rest));
    MatcherShows(p, clock, layer, rest);
    if DeliveredIn(m.matcher.out.log) != [] {
      ops := Trial(layer, rest);
      var s := MapperShows(p, clock, layer, rest, rule);
      EndToEnd.VisibleDelivers(m.matcher.out.log);
    } else {
      ops := Trial(layer, rest + [e]);
      var s := MapperPasses(p, clock, layer, rest, rule, e);
      assert (rest + [e])[..|rest|] == rest;
      MatcherTrial(p, clock, layer, rest + [e], rest, e);
      var r := MatchRun(clock, StartMatcher(p), ops);
      FreshKeyGivesBack(p, clock, m, layer, rest, e, r);
      DeliveredApart(s.core.out.log, r.matcher.out.log, rest[0], e);
    }
  }

  /** A silent path with binds: the mapper shows them, the lists do not call for them. */
  lemma BindsDiffer(p: Profile, clock: Clock, layer: nat, rest: seq<InputEvent>, rule: Sequence) returns (ops: seq<Op>)
    requires WellFormed(p) && CompileProfile(p).Some? && layer < |p.layers| && rule.binds != []
    requires SilentPath(CompileProfile(p).value.states[layer], rest, rule)
    requires UntimedLayer(ParseLayer(p.layers[layer])) && NoneEnds(ParseLayer(p.layers[layer]), rest)
    ensures KeysAndLayers(ops) && Differ(p, clock, ops, 1)
  {
    ops := Trial(layer, rest);
    var s := MapperShows(p, clock, layer, rest, rule);
    MatcherShows(p, clock, layer, rest);
    ShownApart(s.core.out.log, MatchRun(clock, StartMatcher(p), ops).matcher.out.log, rule.binds);
  }

  /** In a layer with incompatible sequences some keys are answered otherwise than the lists of sequences call for. */
  lemma IncompatibleDiffer(p: Profile, clock: Clock, layer: nat, m: nat, n: nat) returns (ops: seq<Op>)
    requires WellFormed(p) && CompileProfile(p).Some? && layer < |p.layers|
    requires var seqs := ParseLayer(p.layers[layer]);
      UntimedLayer(seqs) && m < n < |seqs| && !Compatible(seqs[m], seqs[n])
    ensures KeysAndLayers(ops) && Differ(p, clock, ops, 1)
  {
    var seqs := ParseLayer(p.layers[layer]);
    var b := LayerCompilation(p, layer);
    IncompatibleGoesOn(seqs[m], seqs[n]);
    var rest := Collapses(seqs, m, n, b);
    if seqs[n].binds != [] {
      ops := BindsDiffer(p, clock, layer, rest, seqs[n]);
    } else {
      ops := SilentDiffer(p, clock, layer, rest, seqs[n]);
    }
  }

  /** For accepted untimed profiles: the mapper does what the lists of sequences say, in every run of keys and layer
      changes, exactly when the sequences of every layer are compatible. */
  lemma AgreementExact(p: Profile, clock: Clock)
    requires WellFormed(p) && CompileProfile(p).Some? && UntimedProfile(p)
    ensures (forall ops :: KeysAndLayers(ops) ==> Agree(p, clock, ops)) <==> Sound(p)
  {
    if Sound(p) {
      forall ops | KeysAndLayers(ops)
        ensures Agree(p, clock, ops)
      {
        SoundAgree(p, clock, ops);
      }
    } else {
      var i :| 0 <= i < |p.layers| && !CompatibleAll(ParseLayer(p.layers[i]));
      var seqs := ParseLayer(p.layers[i]);
      var m, n :| 0 <= m < n < |seqs| && !Compatible(seqs[m], seqs[n]);
      var ops := IncompatibleDiffer(p, clock, i, m, n);
      DifferNotAgree(p, clock, ops, 1);
    }
  }

  // ---------- an example ----------

  function PairLayer(a: KeyCode, b: KeyCode, short: seq<Bind>, long: seq<Bind>): Layer {
    Layer("pair", [], [SequenceTrigger(SequenceBehavior.Default, Divergence.Triggers([a]), short),
                       SequenceTrigger(SequenceBehavior.Default, Divergence.Triggers([a, b]), long)])
  }

  /** One layer with the Default sequences a and a b, in this order. */
  function Pair(a: KeyCode, b: KeyCode, short: seq<Bind>, long: seq<Bind>): Profile {
    Profile("pair", [PairLayer(a, b, short, long)], 0)
  }

  lemma PairParsed(a: KeyCode, b: KeyCode, short: seq<Bind>, long: seq<Bind>) returns (one: Sequence, two: Sequence)
    ensures one == Sequence(SequenceBehavior.Default, [Node(Divergence.Key(a), None)], short)
    ensures two == Sequence(SequenceBehavior.Default, [Node(Divergence.Key(a), None), Node(Divergence.Key(b), None)], long)
    ensures NormalLayer(PairLayer(a, b, short, long)) && ParseLayer(PairLayer(a, b, short, long)) == [one, two]
  {
    Divergence.TriggersParsed([a]);
    Divergence.TriggersParsed([a, b]);
    one := Sequence(SequenceBehavior.Default, [Node(Divergence.Key(a), None)], short);
    two := Sequence(SequenceBehavior.Default, [Node(Divergence.Key(a), None), Node(Divergence.Key(b), None)], long);
    assert Divergence.KeyNodes([a]) == one.nodes && Divergence.KeyNodes([a, b]) == two.nodes;
  }

  lemma PairCompiled(a: KeyCode, b: KeyCode, short: seq<Bind>, long: seq<Bind>, two: Sequence)
    requires a != b && SwapsBelow(short, 1) && SwapsBelow(long, 1)
    requires two == Sequence(SequenceBehavior.Default, [Node(Divergence.Key(a), None), Node(Divergence.Key(b), None)], long)
    ensures var p := Pair(a, b, short, long);
      WellFormed(p) && CompileProfile(p).Some? && |CompileProfile(p).value.states| == 1 &&
      SilentPath(CompileProfile(p).value.states[0], [Divergence.Key(b)], two)
  {
    var p, key := Pair(a, b, short, long), Divergence.Key(b);
    var one, two' := PairParsed(a, b, short, long);
    DefaultOrderMatters(Divergence.Key(a), key, short, long);
    assert p.layers[0] == PairLayer(a, b, short, long);
    ProfileRejected(p);
    var cp := CompileProfile(p).value;
    assert CompileLayer(p.layers[0]) == Some((cp.states[0], cp.basics[0]));
    var rest := [key];
    assert rest[..0] == [] && rest[..1] == [] + [key];
    TrailNext(cp.states[0], HOME_STATE_IDX, [], key);
    assert SilentStep(cp.states[0], rest, 0, two);
  }

  /** With nothing pending, an event that no sequence starts with is translated. */
  lemma StrayEvent(p: Profile, clock: Clock, x: Matcher, layer: nat, e: InputEvent)
    requires Pending(p, x, layer, []) && Scan(Rules(p, x), [e]).None?
    ensures Visible(MatchIterate(p, clock, x, Some(e)).out.log) == [Delivered(e)]
  {
    var x1 := Note(Reset(x), Dropped(HeldWord(p, x)));
    assert x.word + [e] == [e];
    assert MatchEvent(p, clock, x, e) == Pass(p, clock, x1, e);
    DeliverVisible(clock, x1.out, e, FindRemapping(p.layers[layer].basicRemappings, e));
    FlushExact(clock, Pass(p, clock, x1, e).out);
  }

  lemma PairMatched(clock: Clock, p: Profile, a: KeyCode, b: KeyCode, short: seq<Bind>, long: seq<Bind>, r: MSys)
    requires a != b && p == Pair(a, b, short, long) && WellFormed(p)
    requires r == MatchRun(clock, StartMatcher(p), Trial(0, [Divergence.Key(b)]))
    ensures Visible(r.matcher.out.log) == [Delivered(Divergence.Key(b))]
  {
    var e, m := Divergence.Key(b), MatchRun(clock, StartMatcher(p), Trial(0, []));
    var one, two := PairParsed(a, b, short, long);
    MatcherStarts(p, clock, 0);
    MatcherTrial(p, clock, 0, [e], [], e);
    assert Rules(p, m.matcher) == [one, two];
    assert Word(one)[0] == Word(two)[0] == Divergence.Key(a);
    StrayEvent(p, clock, m.matcher, 0, e);
  }

  /** The key b alone, as the first key: the mapper runs the binds of the sequence a b, the matcher translates the key. */
  lemma PairDiffers(clock: Clock, p: Profile, a: KeyCode, b: KeyCode, short: seq<Bind>, long: seq<Bind>) returns (s: Sys)
    requires a != b && SwapsBelow(short, 1) && SwapsBelow(long, 1) && p == Pair(a, b, short, long)
    ensures WellFormed(p) && CompileProfile(p).Some? && RunFrom(p, clock, Trial(0, [Divergence.Key(b)]), 1) == Some(s)
    ensures Visible(s.core.out.log) == EmittedAll(long)
    ensures Visible(MatchRun(clock, StartMatcher(p), Trial(0, [Divergence.Key(b)])).matcher.out.log) == [Delivered(Divergence.Key(b))]
  {
    var one, two := PairParsed(a, b, short, long);
    PairCompiled(a, b, short, long, two);
    s := MapperShows(p, clock, 0, [Divergence.Key(b)], two);
    PairMatched(clock, p, a, b, short, long, MatchRun(clock, StartMatcher(p), Trial(0, [Divergence.Key(b)])));
  }
}
