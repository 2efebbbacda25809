/** What reaches the output queue, and when: the log of a run read against the profile as the user wrote it. */
module Effects {
  import opened Options
  import opened Profiles
  import opened Automata
  import StateMachine
  import opened Outputs
  import opened OutputQueue
  import opened MapperModel
  import opened Profiling
  import opened MapperRuns
  import opened Bounded

  // ---------- what a list of binds asks for ----------

  /** An output, so many milliseconds after it is queued. */
  datatype Due = Due(delay: nat, event: OutputEvent)

  /** The outputs of a list of binds, read from the front: `waited` is the sum of the waits passed so far. */
  function Asked(binds: seq<Bind>, waited: nat): seq<Due> {
    if binds == [] then []
    else
      match binds[0]
      case PressKey(k) => [Due(waited, KeyOutput(k, KeyEventType.Press))] + Asked(binds[1..], waited)
      case ReleaseKey(k) => [Due(waited, KeyOutput(k, KeyEventType.Release))] + Asked(binds[1..], waited)
      case RunScript(i, s) => [Due(waited, ScriptOutput(i, s))] + Asked(binds[1..], waited)
      case SwapLayer(_) => Asked(binds[1..], waited)
      case Wait(ms) => Asked(binds[1..], waited + ms)
  }

  /** The layer one is in after the binds: each layer swap counts until the next one. */
  function LayerAfter(binds: seq<Bind>, layer: nat): nat {
    if binds == [] then layer
    else LayerAfter(binds[1..], if binds[0].SwapLayer? then binds[0].newLayer else layer)
  }

  /** Entries for `asked`, each with a clock reading of its own, the first one number `tick`. */
  function Entries(clock: Clock, tick: nat, asked: seq<Due>): (entries: seq<Entry>)
    ensures |entries| == |asked|
    decreases |asked|
  {
    if asked == [] then []
    else [Entry(clock(tick) + asked[0].delay, asked[0].event)] + Entries(clock, tick + 1, asked[1..])
  }

  /** The notes that say that they were queued. */
  function Notes(entries: seq<Entry>): seq<LogEntry> {
    if entries == [] then [] else [Queued(entries[0])] + Notes(entries[1..])
  }

  /** `out` with all of `asked` queued. */
  function Asking(clock: Clock, out: Out, asked: seq<Due>): Out {
    var entries := Entries(clock, out.ticks, asked);
    out.(queue := out.queue + entries, ticks := out.ticks + |asked|, log := out.log + Notes(entries))
  }

  // ---------- the same, bind by bind ----------

  /** Whether a bind asks for an output. */
  predicate HasOutput(bind: Bind) {
    bind.PressKey? || bind.ReleaseKey? || bind.RunScript?
  }

  /** The event a bind asks for. */
  predicate AsksFor(bind: Bind, event: OutputEvent) {
    || (bind.PressKey? && event == KeyOutput(bind.keyCode, KeyEventType.Press))
    || (bind.ReleaseKey? && event == KeyOutput(bind.keyCode, KeyEventType.Release))
    || (bind.RunScript? && event == ScriptOutput(bind.interpreter, bind.script))
  }

  /** How many of the first `i` binds ask for an output. */
  function Place(binds: seq<Bind>, i: nat): nat
    requires i <= |binds|
  {
    if i == 0 then 0 else Place(binds, i - 1) + if HasOutput(binds[i - 1]) then 1 else 0
  }

  /** The sum of the waits among the first `i` binds. */
  function WaitBefore(binds: seq<Bind>, i: nat): nat
    requires i <= |binds|
  {
    if i == 0 then 0 else WaitBefore(binds, i - 1) + if binds[i - 1].Wait? then binds[i - 1].ms else 0
  }

  lemma {:induction false} BehindFirst(binds: seq<Bind>, i: nat)
    requires i < |binds|
    ensures Place(binds, i + 1) == Place(binds[1..], i) + if HasOutput(binds[0]) then 1 else 0
    ensures WaitBefore(binds, i + 1) == WaitBefore(binds[1..], i) + if binds[0].Wait? then binds[0].ms else 0
    decreases i
  {
    if i > 0 {
      BehindFirst(binds, i - 1);
    }
  }

  lemma {:induction false} AskedCount(binds: seq<Bind>, waited: nat)
    ensures |Asked(binds, waited)| == Place(binds, |binds|)
    decreases |binds|
  {
    if binds != [] {
      AskedCount(binds[1..], if binds[0].Wait? then waited + binds[0].ms else waited);
      BehindFirst(binds, |binds| - 1);
    }
  }

  /** Bind `i` finds its output at its place, behind the waits written before it. */
  predicate AskedFor(binds: seq<Bind>, waited: nat, i: nat)
    requires i < |binds|
  {
    var asked, at := Asked(binds, waited), Place(binds, i);
    at < |asked| && asked[at].delay == waited + WaitBefore(binds, i) && AsksFor(binds[i], asked[at].event)
  }

  lemma {:induction false} AskedAt(binds: seq<Bind>, waited: nat, i: nat)
    requires i < |binds| && HasOutput(binds[i])
    ensures AskedFor(binds, waited, i)
    decreases i
  {
    if i > 0 {
      var waited' := if binds[0].Wait? then waited + binds[0].ms else waited;
      AskedAt(binds[1..], waited', i - 1);
      BehindFirst(binds, i - 1);
      assert Asked(binds, waited) == Asked(binds, waited)[..if HasOutput(binds[0]) then 1 else 0] + Asked(binds[1..], waited');
    }
  }

  lemma {:induction false} EntryAt(clock: Clock, tick: nat, asked: seq<Due>, i: nat)
    requires i < |asked|
    ensures Entries(clock, tick, asked)[i] == Entry(clock(tick + i) + asked[i].delay, asked[i].event)
    decreases i
  {
    if i > 0 {
      EntryAt(clock, tick + 1, asked[1..], i - 1);
    }
  }

  // ---------- a list of binds is queued as asked ----------

  /** The sum of all waits. */
  function Waits(binds: seq<Bind>): nat {
    if binds == [] then 0 else Waits(binds[1..]) + if binds[0].Wait? then binds[0].ms else 0
  }

  lemma {:induction false} AskedNext(before: seq<Bind>, last: Bind, waited: nat)
    ensures Asked(before + [last], waited) == Asked(before, waited) + Asked([last], waited + Waits(before))
    decreases |before|
  {
    if before == [] {
      assert before + [last] == [last];
    } else {
      assert (before + [last])[1..] == before[1..] + [last];
      AskedNext(before[1..], last, if before[0].Wait? then waited + before[0].ms else waited);
    }
  }

  lemma {:induction false} WaitsNext(before: seq<Bind>, last: Bind)
    ensures Waits(before + [last]) == Waits(before) + if last.Wait? then last.ms else 0
    decreases |before|
  {
    if before == [] {
      assert before + [last] == [last];
    } else {
      assert (before + [last])[1..] == before[1..] + [last];
      WaitsNext(before[1..], last);
    }
  }

  lemma {:induction false} LayerNext(before: seq<Bind>, last: Bind, layer: nat)
    ensures LayerAfter(before + [last], layer) == if last.SwapLayer? then last.newLayer else LayerAfter(before, layer)
    decreases |before|
  {
    if before == [] {
      assert before + [last] == [last];
    } else {
      assert (before + [last])[1..] == before[1..] + [last];
      LayerNext(before[1..], last, if before[0].SwapLayer? then before[0].newLayer else layer);
    }
  }

  lemma {:induction false} WaitsAddUp(binds: seq<Bind>)
    ensures TotalWait(binds) == Waits(binds)
    decreases |binds|
  {
    if binds != [] {
      var n := |binds| - 1;
      WaitsAddUp(binds[..n]);
      WaitsNext(binds[..n], binds[n]);
      assert binds == binds[..n] + [binds[n]];
    }
  }

  lemma {:induction false} EntriesAppend(clock: Clock, tick: nat, a: seq<Due>, b: seq<Due>)
    ensures Entries(clock, tick, a + b) == Entries(clock, tick, a) + Entries(clock, tick + |a|, b)
    decreases |a|
  {
    if a == [] {
      assert a + b == b;
    } else {
      assert (a + b)[1..] == a[1..] + b;
      EntriesAppend(clock, tick + 1, a[1..], b);
    }
  }

  lemma {:induction false} NotesAppend(a: seq<Entry>, b: seq<Entry>)
    ensures Notes(a + b) == Notes(a) + Notes(b)
    decreases |a|
  {
    if a == [] {
      assert a + b == b;
    } else {
      assert (a + b)[1..] == a[1..] + b;
      NotesAppend(a[1..], b);
    }
  }

  lemma AskingOn(clock: Clock, out: Out, a: seq<Due>, b: seq<Due>)
    ensures Asking(clock, Asking(clock, out, a), b) == Asking(clock, out, a + b)
  {
    var e1, e2 := Entries(clock, out.ticks, a), Entries(clock, out.ticks + |a|, b);
    EntriesAppend(clock, out.ticks, a, b);
    NotesAppend(e1, e2);
    QueuedTwice(out, e1, e2);
  }

  lemma QueuedTwice(out: Out, a: seq<Entry>, b: seq<Entry>)
    ensures (out.queue + a) + b == out.queue + (a + b)
    ensures (out.log + Notes(a)) + Notes(b) == out.log + (Notes(a) + Notes(b))
  {
  }

  lemma AskingOne(clock: Clock, out: Out, delay: nat, event: OutputEvent)
    ensures QueueOutput(clock, out, event, delay) == Asking(clock, out, [Due(delay, event)])
  {
    var entry := Entry(clock(out.ticks) + delay, event);
    assert [Due(delay, event)][1..] == [] && [entry][1..] == [];
    assert Entries(clock, out.ticks, [Due(delay, event)]) == [entry] && Notes([entry]) == [Queued(entry)];
  }

  /** The queueing loop, whatever it does, ends with the outputs of the list queued in its order, each with a reading of its
      own and the waits written before it. */
  lemma {:induction false} BindsAsk(clock: Clock, out: Out, binds: seq<Bind>)
    ensures RunBinds(clock, out, binds) == Asking(clock, out, Asked(binds, 0))
    decreases |binds|
  {
    if binds == [] {
      assert Asking(clock, out, []) == out;
    } else {
      var before, last := binds[..|binds| - 1], binds[|binds| - 1];
      assert binds == before + [last];
      BindsAsk(clock, out, before);
      AskedNext(before, last, 0);
      WaitsAddUp(before);
      LastAsks(clock, RunBinds(clock, out, before), last, Waits(before));
      AskingOn(clock, out, Asked(before, 0), Asked([last], Waits(before)));
    }
  }

  lemma LastAsks(clock: Clock, out: Out, last: Bind, waited: nat)
    ensures Asking(clock, out, Asked([last], waited)) ==
      match BindOutput(last)
      case Some(event) => QueueOutput(clock, out, event, waited)
      case None => out
  {
    var asked := Asked([last], waited);
    assert [last][1..] == [];
    if HasOutput(last) {
      AskingOne(clock, out, waited, asked[0].event);
    } else {
      assert Asking(clock, out, []) == out;
    }
  }

  /** And in the layer of the last swap. */
  lemma {:induction false} BindsMove(binds: seq<Bind>, layer: nat)
    ensures LayerAfter(binds, layer) == match LastSwap(binds) case Some(n) => n case None => layer
    decreases |binds|
  {
    if binds != [] {
      var before, last := binds[..|binds| - 1], binds[|binds| - 1];
      assert binds == before + [last];
      BindsMove(before, layer);
      LayerNext(before, last, layer);
    }
  }

  /** Bind number `i` of a list that runs finds its entry behind what was queued, at the place that the number of outputs
      before it gives: a press for PressKey, a release for ReleaseKey, the script for RunScript, due at a reading of its own
      plus the waits before it. */
  lemma BindQueued(clock: Clock, out: Out, binds: seq<Bind>, i: nat)
    requires i < |binds| && HasOutput(binds[i])
    ensures var r, at := RunBinds(clock, out, binds), Place(binds, i);
      && |out.queue| + at < |r.queue|
      && r.queue[|out.queue| + at].due == clock(out.ticks + at) + WaitBefore(binds, i)
      && AsksFor(binds[i], r.queue[|out.queue| + at].event)
  {
    BindsAsk(clock, out, binds);
    AskedAt(binds, 0, i);
    EntryAt(clock, out.ticks, Asked(binds, 0), Place(binds, i));
  }

  /** Nothing else is queued: one entry for each bind with an output, behind what was there. */
  lemma OnlyBindsQueued(clock: Clock, out: Out, binds: seq<Bind>)
    ensures var r := RunBinds(clock, out, binds);
      && out.queue <= r.queue && |r.queue| == |out.queue| + Place(binds, |binds|)
      && r.ticks == out.ticks + Place(binds, |binds|)
  {
    BindsAsk(clock, out, binds);
    AskedCount(binds, 0);
  }

  /** The layer after a list of binds is the one its last layer swap names; without a swap it stays. */
  lemma {:induction false} LayerOfLastSwap(binds: seq<Bind>, layer: nat, i: nat)
    requires i <= |binds| && forall j :: i < j < |binds| ==> !binds[j].SwapLayer?
    requires i < |binds| ==> binds[i].SwapLayer?
    requires i == |binds| ==> forall j :: 0 <= j < |binds| ==> !binds[j].SwapLayer?
    ensures LayerAfter(binds, layer) == if i < |binds| then binds[i].newLayer else layer
    decreases |binds|
  {
    if binds != [] {
      var n := |binds| - 1;
      var before, last := binds[..n], binds[n];
      assert binds == before + [last];
      LayerNext(before, last, layer);
      if i != n {
        assert !last.SwapLayer?;
        LayerOfLastSwap(before, layer, if i < n then i else n);
      }
    }
  }

  // ---------- basic translation ----------

  /** The event a basic trigger waits for. */
  predicate Answers(trigger: BasicTrigger, e: InputEvent) {
    match trigger
    case KeyPress(k) => e == KeyEvent(k, KeyEventType.Press)
    case KeyRelease(k) => e == KeyEvent(k, KeyEventType.Release)
    case AppFocused(a) => e == AppFocusedEvent(a)
  }

  /** The binds of the first remapping that waits for `e`. */
  function Remapped(remappings: seq<BasicRemapping>, e: InputEvent): Option<seq<Bind>> {
    if remappings == [] then None
    else if Answers(remappings[0].trigger, e) then Some(remappings[0].binds)
    else Remapped(remappings[1..], e)
  }

  /** The outputs an event asks for: those of its remapping if it has one, otherwise a key asks for itself. */
  function Translation(remappings: seq<BasicRemapping>, e: InputEvent): seq<Due> {
    match Remapped(remappings, e)
    case Some(binds) => Asked(binds, 0)
    case None => if e.KeyEvent? then [Due(0, KeyOutput(e.keyCode, e.eventType))] else []
  }

  function TranslatedLayer(remappings: seq<BasicRemapping>, e: InputEvent, layer: nat): nat {
    match Remapped(remappings, e)
    case Some(binds) => LayerAfter(binds, layer)
    case None => layer
  }

  lemma {:induction false} RemappedAt(remappings: seq<BasicRemapping>, e: InputEvent)
    ensures match Remapped(remappings, e)
      case None => forall j :: 0 <= j < |remappings| ==> !Answers(remappings[j].trigger, e)
      case Some(binds) => exists j :: 0 <= j < |remappings| && Answers(remappings[j].trigger, e) && remappings[j].binds == binds
    decreases |remappings|
  {
    if remappings != [] && !Answers(remappings[0].trigger, e) {
      RemappedAt(remappings[1..], e);
      match Remapped(remappings, e)
      case None =>
      case Some(binds) =>
        var j :| 0 <= j < |remappings| - 1 && Answers(remappings[1..][j].trigger, e) && remappings[1..][j].binds == binds;
        assert remappings[1..][j] == remappings[j + 1];
    }
  }

  lemma MapWritten(remappings: seq<BasicRemapping>, basics: map<InputEvent, seq<Bind>>, e: InputEvent)
    requires BasicMap(remappings, |remappings|) == Some(basics)
    ensures if e in basics then Remapped(remappings, e) == Some(basics[e]) else Remapped(remappings, e).None?
  {
    BasicMapExact(remappings, |remappings|);
    RemappedAt(remappings, e);
    if e in basics {
      var j :| 0 <= j < |remappings| && e == BasicTriggerToInput(remappings[j].trigger);
      assert Answers(remappings[j].trigger, e);
    }
  }

  /** The compiled profile remaps events as its layers are written. */
  lemma BasicsWritten(p: Profile, cp: Compiled, layer: nat, e: InputEvent)
    requires NormalProfile(p) && CompileProfile(p) == Some(cp) && layer < |cp.basics|
    ensures layer < |p.layers| && Remapping(cp, layer, e) == Remapped(p.layers[layer].basicRemappings, e)
  {
    assert CompileLayer(p.layers[layer]) == Some((cp.states[layer], cp.basics[layer]));
    MapWritten(p.layers[layer].basicRemappings, cp.basics[layer], e);
  }

  /** A compiled profile with the mapper in one of its layers. */
  ghost predicate Running(p: Profile, cp: Compiled, c: Core) {
    NormalProfile(p) && CompileProfile(p) == Some(cp) && c.layer < |cp.basics| && c.layer < |p.layers|
  }

  function Noting(out: Out, note: LogEntry): Out {
    out.(log := out.log + [note])
  }

  /** Translating an event notes it and queues what the layer as written asks for. */
  lemma DeliverAsks(p: Profile, cp: Compiled, clock: Clock, c: Core, e: InputEvent)
    requires Running(p, cp, c)
    ensures var r, remappings := Deliver(cp, clock, c, e), p.layers[c.layer].basicRemappings;
      && r.out == Asking(clock, Noting(c.out, Delivered(e)), Translation(remappings, e))
      && r.layer == TranslatedLayer(remappings, e, c.layer)
  {
    BasicsWritten(p, cp, c.layer, e);
    var out := Noting(c.out, Delivered(e));
    match Remapping(cp, c.layer, e)
    case Some(binds) =>
      BindsAsk(clock, out, binds);
      BindsMove(binds, c.layer);
    case None =>
      if e.KeyEvent? {
        AskingOne(clock, out, 0, KeyOutput(e.keyCode, e.eventType));
      } else {
        assert Asking(clock, out, []) == out;
      }
  }

  /** A sequence bind is noted and queues its own output at once. */
  lemma EmitAsks(clock: Clock, c: Core, bind: Bind)
    ensures var r := EmitBind(clock, c, bind);
      r.out == Asking(clock, Noting(c.out, Emitted(bind)), Asked([bind], 0)) && r.layer == LayerAfter([bind], c.layer)
  {
    BindsAsk(clock, Noting(c.out, Emitted(bind)), [bind]);
    BindsMove([bind], c.layer);
  }

  /** Where no basic remapping of the layer waits for it, translating a key queues that key, due at once, and nothing else;
      translating the focus of an application queues nothing. */
  lemma UnmappedPasses(p: Profile, cp: Compiled, clock: Clock, c: Core, e: InputEvent)
    requires Running(p, cp, c)
    requires forall j :: 0 <= j < |p.layers[c.layer].basicRemappings| ==>
      !Answers(p.layers[c.layer].basicRemappings[j].trigger, e)
    ensures var r := Deliver(cp, clock, c, e);
      && r.layer == c.layer && r.state == c.state && r.timer == c.timer
      && r.out.queue == c.out.queue +
           if e.KeyEvent? then [Entry(clock(c.out.ticks), KeyOutput(e.keyCode, e.eventType))] else []
  {
    var remappings := p.layers[c.layer].basicRemappings;
    RemappedAt(remappings, e);
    BasicsWritten(p, cp, c.layer, e);
  }

  /** Where remapping number `j` waits for it, translating an event queues the outputs of that remapping's binds. */
  lemma MappedRuns(p: Profile, cp: Compiled, clock: Clock, c: Core, e: InputEvent, j: nat)
    requires Running(p, cp, c) && j < |p.layers[c.layer].basicRemappings|
    requires Answers(p.layers[c.layer].basicRemappings[j].trigger, e)
    ensures var r, binds := Deliver(cp, clock, c, e), p.layers[c.layer].basicRemappings[j].binds;
      && r.out.queue == c.out.queue + Entries(clock, c.out.ticks, Asked(binds, 0))
      && r.layer == LayerAfter(binds, c.layer)
  {
    var remappings := p.layers[c.layer].basicRemappings;
    BasicsWritten(p, cp, c.layer, e);
    assert CompileLayer(p.layers[c.layer]) == Some((cp.states[c.layer], cp.basics[c.layer]));
    BasicMapExact(remappings, |remappings|);
    assert BasicTriggerToInput(remappings[j].trigger) == e;
    DeliverAsks(p, cp, clock, c, e);
  }
}
