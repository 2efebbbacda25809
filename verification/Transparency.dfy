/** Release sequences never hold anything back: every input is translated, at once and in order.
    Nothing is asked of the layers beyond their behaviour: words may be nested and timers may disagree. */
module Transparency {
  import opened Options
  import opened Profiles
  import opened Automata
  import opened StateMachine
  import TreeShape
  import opened Outputs
  import opened OutputQueue
  import opened MapperModel
  import opened Replaying
  import opened Profiling
  import opened MapperRuns
  import opened Conservation

  predicate Releases(s: Sequence) {
    s.behavior == SequenceBehavior.Release && forall i :: 0 <= i < |s.nodes| ==> !IsMinimum(s.nodes[i].timer)
  }

  predicate ReleaseRules(seqs: seq<Sequence>) {
    forall m :: 0 <= m < |seqs| ==> Releases(seqs[m])
  }

  /** Translates `e` and then only runs binds. */
  predicate ReleasesOnly(t: Transition, e: InputEvent) {
    && t.outputs != [] && t.outputs[0] == BasicTranslation(Some(e))
    && forall i :: 1 <= i < |t.outputs| ==> t.outputs[i].Emit?
  }

  predicate ReleaseState(s: State) {
    && s.fallback == HOME_STATE.fallback
    && (s.timer.Some? ==> s.timer.value == s.fallback)
    && forall e :: e in s.edges ==> ReleasesOnly(s.edges[e], e)
  }

  ghost predicate ReleaseMachine(states: seq<State>) {
    && InRange(states)
    && forall i {:trigger ReleaseState(states[i])} :: 0 <= i < |states| ==> ReleaseState(states[i])
  }

  /** All states but number `i` are as before. */
  lemma SetStateRelease(states: seq<State>, i: nat, state: State)
    requires ReleaseMachine(states) && i < |states| && InRange(states[i := state]) && ReleaseState(state)
    ensures ReleaseMachine(states[i := state])
  {
    var states' := states[i := state];
    forall j | 0 <= j < |states'|
      ensures ReleaseState(states'[j])
    {
      assert j != i ==> ReleaseState(states[j]);
    }
  }

  lemma AttachTimerRelease(b: Build, s: Sequence, k: nat, next: nat)
    requires ValidBuild(b) && k < |s.nodes| && next < |b.states| && Releases(s) && ReleaseMachine(b.states)
    ensures ReleaseMachine(AttachTimer(b, s, k, next).0.states)
  {
    var state := b.states[next];
    if s.nodes[k].timer.Some? && state.timer.None? {
      assert ReleaseState(state);
      SetStateRelease(b.states, next, state.(timer := Some(state.fallback)));
    }
  }

  lemma SetEdgeRelease(b: Build, i: nat, e: InputEvent, t: Transition)
    requires ReleaseMachine(b.states) && i < |b.states| && t.newState < |b.states|
    requires ReleasesOnly(t, e)
    ensures ReleaseMachine(SetEdge(b, i, e, t).states)
  {
    assert ReleaseState(b.states[i]);
    SetStateRelease(b.states, i, b.states[i].(edges := b.states[i].edges[e := t]));
  }

  lemma PushRelease(b: Build, state: State, m: StateMetadata)
    requires ReleaseMachine(b.states) && state == State(map[], HOME_STATE.fallback, None)
    ensures ReleaseMachine(Push(b, state, m).states)
  {
    var states' := b.states + [state];
    forall i | 0 <= i < |states'|
      ensures ReleaseState(states'[i])
    {
      assert i < |b.states| ==> ReleaseState(b.states[i]);
    }
  }

  lemma InsertNodeRelease(b: Build, s: Sequence, k: nat, cur: nat, b': Build, cur': nat)
    requires ValidBuild(b) && k < |s.nodes| && cur < |b.states| && Releases(s)
    requires ReleaseMachine(b.states) && InsertNode(b, s, k, cur) == Some((b', cur'))
    ensures ReleaseMachine(b'.states)
  {
    var node, t := s.nodes[k], |b.states|;
    if node.event in b.states[cur].edges {
      AttachTimerRelease(b, s, k, b.states[cur].edges[node.event].newState);
    } else if k + 1 == |s.nodes| && node.timer.None? {
      SetEdgeRelease(b, cur, node.event, CompleteEdge(s, node.event));
    } else {
      var edge := Transition(Ms(node.timer), Released(s.behavior, node.event), t);
      var metadata := StateMetadata(node.timer, s.behavior);
      PushRelease(b, FreshState(s, k), metadata);
      SetEdgeRelease(Push(b, FreshState(s, k), metadata), cur, node.event, edge);
      AttachTimerRelease(SetEdge(Push(b, FreshState(s, k), metadata), cur, node.event, edge), s, k, t);
    }
  }

  lemma CompileRelease(seqs: seq<Sequence>, n: nat)
    requires n <= |seqs| && ReleaseRules(seqs) && CompilePrefix(seqs, n).Some?
    ensures ReleaseMachine(CompilePrefix(seqs, n).value.states)
  {
    var inv := (b: Build) => ReleaseMachine(b.states);
    forall m | 0 <= m < n
      ensures Keeps(seqs[m], inv)
    {
      forall b: Build, k: nat, cur: nat | GoesIn(b, seqs[m], k, cur) && inv(b)
        ensures inv(InsertNode(b, seqs[m], k, cur).value.0)
      {
        var (b', cur') := InsertNode(b, seqs[m], k, cur).value;
        InsertNodeRelease(b, seqs[m], k, cur, b', cur');
      }
    }
    CompileKeeps(seqs, n, inv);
  }

  lemma ReleaseRunnable(states: seq<State>)
    requires ReleaseMachine(states)
    ensures Replayable(states)
  {
    var none: seq<StateMachineOutput> := [BasicTranslation(None)];
    assert Carried(none) == Carried(none[..0]) == [];
    assert NoReplay(none);
    forall i | 0 <= i < |states|
      ensures ReleaseState(states[i])
    {}
    forall i, e | 0 <= i < |states| && e in states[i].edges
      ensures EdgeHolds(states, i, states[i].edges[e])
    {
      assert ReleaseState(states[i]) && ReleasesOnly(states[i].edges[e], e);
    }
  }

  // ---------- runs ----------

  /** The events handed to basic translation, in order. */
  function DeliveredIn(log: seq<LogEntry>): seq<InputEvent> {
    if log == [] then []
    else
      var last := log[|log| - 1];
      DeliveredIn(log[..|log| - 1]) + if last.Delivered? then [last.event] else []
  }

  ghost predicate LayerReleases(cp: Compiled, l: nat)
    requires l < |cp.states|
  {
    ReleaseMachine(cp.states[l])
  }

  ghost predicate ReleaseSystem(s: Sys) {
    SysOk(s) && forall l: nat {:trigger LayerReleases(s.cp, l)} :: l < |s.cp.states| ==> LayerReleases(s.cp, l)
  }

  lemma DeliveredNote(log: seq<LogEntry>, entry: LogEntry)
    ensures DeliveredIn(log + [entry]) == DeliveredIn(log) + if entry.Delivered? then [entry.event] else []
  {
    assert (log + [entry])[..|log|] == log;
  }

  lemma {:induction false} BindsDeliverNothing(clock: Clock, out: Out, binds: seq<Bind>)
    ensures DeliveredIn(RunBinds(clock, out, binds).log) == DeliveredIn(out.log)
    decreases |binds|
  {
    if binds != [] {
      var before := binds[..|binds| - 1];
      BindsDeliverNothing(clock, out, before);
      var out' := RunBinds(clock, out, before);
      var output := BindOutput(binds[|binds| - 1]);
      if output.Some? {
        DeliveredNote(out'.log, Queued(Entry(clock(out'.ticks) + TotalWait(before), output.value)));
      }
    }
  }

  lemma DeliverDelivers(cp: Compiled, clock: Clock, c: Core, e: InputEvent)
    requires c.layer < |cp.basics|
    ensures DeliveredIn(Deliver(cp, clock, c, e).out.log) == DeliveredIn(c.out.log) + [e]
  {
    DeliveredNote(c.out.log, Delivered(e));
    var out' := c.out.(log := c.out.log + [Delivered(e)]);
    match Remapping(cp, c.layer, e)
    case Some(binds) => BindsDeliverNothing(clock, out', binds);
    case None =>
      if e.KeyEvent? {
        DeliveredNote(out'.log, Queued(Entry(clock(out'.ticks) + 0, KeyOutput(e.keyCode, e.eventType))));
      }
  }

  lemma EmitDeliversNothing(clock: Clock, c: Core, bind: Bind)
    ensures DeliveredIn(EmitBind(clock, c, bind).out.log) == DeliveredIn(c.out.log)
  {
    DeliveredNote(c.out.log, Emitted(bind));
    BindsDeliverNothing(clock, c.out.(log := c.out.log + [Emitted(bind)]), [bind]);
  }

  /** A translation followed by binds translates one event. */
  lemma {:induction false} OutputsDeliverOne(cp: Compiled, clock: Clock, c: Core, outputs: seq<StateMachineOutput>,
                                             prev: Option<InputEvent>, e: Option<InputEvent>)
    requires Ok(cp, c) && !c.paused && OutputsBelow(outputs, |cp.states|) && outputs != []
    requires outputs[0].BasicTranslation? && e == (if outputs[0].event.Some? then outputs[0].event else prev)
    requires forall i :: 1 <= i < |outputs| ==> outputs[i].Emit?
    ensures DeliveredIn(RunOutputs(cp, clock, c, outputs, prev).out.log) == DeliveredIn(c.out.log) + Current(e)
    decreases |outputs|
  {
    var before, last := outputs[..|outputs| - 1], outputs[|outputs| - 1];
    if before == [] {
      if e.Some? {
        DeliverDelivers(cp, clock, c, e.value);
      }
    } else {
      OutputsDeliverOne(cp, clock, c, before, prev, e);
      EmitDeliversNothing(clock, RunOutputs(cp, clock, c, before, prev), last.bind);
    }
  }

  /** Whatever transition is taken on `e`, it translates `e` first and then only runs binds. */
  lemma ChosenReleases(cp: Compiled, c: Core, e: InputEvent)
    requires c.layer < |cp.states| && c.state < |cp.states[c.layer]| && ReleaseMachine(cp.states[c.layer])
    ensures var outputs := Chosen(cp, c, e).outputs;
      && outputs != [] && outputs[0].BasicTranslation?
      && (outputs[0].event.Some? ==> outputs[0].event.value == e)
      && forall i :: 1 <= i < |outputs| ==> outputs[i].Emit?
  {
    assert ReleaseState(cp.states[c.layer][c.state]);
  }

  lemma ChosenRuns(cp: Compiled, clock: Clock, c: Core, e: InputEvent, c1: Core)
    requires Ok(cp, c) && !c.paused && NoReplay(Chosen(cp, c, e).outputs)
    requires c1 == Enter(clock, c.(calls := c.calls + 1), Chosen(cp, c, e))
    ensures CoreOk(cp, c1) && OutputsBelow(Chosen(cp, c, e).outputs, |cp.states|)
    ensures Process(cp, clock, c, e) == RunOutputs(cp, clock, c1, Chosen(cp, c, e).outputs, Some(e))
  {
    ProcessIsApply(cp, clock, c, e);
  }

  lemma ReleaseProcess(cp: Compiled, clock: Clock, c: Core, e: InputEvent, r: Core)
    requires Ok(cp, c) && !c.paused && ReleaseMachine(cp.states[c.layer]) && r == Process(cp, clock, c, e)
    ensures DeliveredIn(r.out.log) == DeliveredIn(c.out.log) + [e]
  {
    var t := Chosen(cp, c, e);
    var c1 := Enter(clock, c.(calls := c.calls + 1), t);
    ChosenReleases(cp, c, e);
    ChosenRuns(cp, clock, c, e, c1);
    OutputsDeliverOne(cp, clock, c1, t.outputs, Some(e), Some(e));
  }

  lemma ReleaseTick(s: Sys, clock: Clock)
    requires ReleaseSystem(s)
    ensures DeliveredIn(Tick(s.cp, clock, s.core).out.log) == DeliveredIn(s.core.out.log)
  {
    var cp, c := s.cp, s.core;
    if c.timer.Some? {
      TickApplies(cp, clock, c);
      assert LayerReleases(cp, c.layer);
      assert ReleaseState(cp.states[c.layer][c.state]);
      var t := cp.states[c.layer][c.state].timer.value;
      var c1 := c.(out := c.out.(ticks := c.out.ticks + 1));
      NoReplayNoRedo(t.outputs, None);
      OutputsDeliverOne(cp, clock, Enter(clock, c1, t), t.outputs, None, None);
    }
  }

  /** From `s` to `r` exactly `inputs` have been translated, in order. */
  ghost predicate Translated(s: Sys, inputs: seq<InputEvent>, r: Sys) {
    && ReleaseSystem(r) && !r.core.paused
    && DeliveredIn(r.core.out.log) == DeliveredIn(s.core.out.log) + inputs
  }

  lemma ReleaseStep(s: Sys, clock: Clock, key: Option<InputEvent>)
    requires ReleaseSystem(s) && !s.core.paused
    ensures Translated(s, Current(key), Step(clock, s, Iterate(key)))
  {
    var c1 := Tick(s.cp, clock, s.core);
    ReleaseTick(s, clock);
    assert LayerReleases(s.cp, c1.layer);
    if key.Some? {
      ReleaseProcess(s.cp, clock, c1, key.value, Process(s.cp, clock, c1, key.value));
    }
  }

  lemma TranslatedNext(s: Sys, a: seq<InputEvent>, r: Sys, b: seq<InputEvent>, r': Sys, all: seq<InputEvent>)
    requires Translated(s, a, r) && Translated(r, b, r') && all == a + b
    ensures Translated(s, all, r')
  {
  }

  /** In every run of keys and timeouts the events handed to basic translation are the inputs, in order. */
  lemma {:induction false} ReleaseTransparent(s: Sys, clock: Clock, ops: seq<Op>)
    requires ReleaseSystem(s) && !s.core.paused && forall i :: 0 <= i < |ops| ==> ops[i].Iterate?
    ensures Translated(s, Inputs(ops), Run(clock, s, ops))
    decreases |ops|
  {
    if ops != [] {
      var before, key := ops[..|ops| - 1], ops[|ops| - 1].key;
      var r := Run(clock, s, before);
      ReleaseTransparent(s, clock, before);
      RunNext(clock, s, ops);
      ReleaseStep(r, clock, key);
      TranslatedNext(s, Inputs(before), r, Current(key), Run(clock, s, ops), Inputs(ops));
    }
  }

  /** Any accepted profile of Release sequences without minimum waits runs transparently from the start. */
  lemma ReleaseProfile(p: Profile)
    requires WellFormed(p) && CompileProfile(p).Some?
    requires forall i :: 0 <= i < |p.layers| ==> ReleaseRules(ParseLayer(p.layers[i]))
    ensures Admissible(p) && ReleaseSystem(StartMapper(p))
  {
    var cp := CompileProfile(p).value;
    CompiledFits(p, cp);
    forall i: nat | i < |cp.states|
      ensures LayerReleases(cp, i) && LayerRuns(cp, i)
    {
      var seqs := ParseLayer(p.layers[i]);
      assert LayerFits(cp, i) && CompileLayer(p.layers[i]) == Some((cp.states[i], cp.basics[i]));
      CompileRelease(seqs, |seqs|);
      ReleaseRunnable(cp.states[i]);
    }
    StartOk(p);
  }
}
