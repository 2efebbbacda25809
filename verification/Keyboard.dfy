/** The plainest use: layers without sequences, whose basic remappings do not wait. What the keys asked for is what the
    daemon gets, in the order of the keys. */
module Keyboard {
  import opened Options
  import opened Profiles
  import opened Automata
  import StateMachine
  import opened Outputs
  import opened OutputQueue
  import opened MapperModel
  import opened Profiling
  import opened MapperRuns
  import opened Bounded
  import opened Effects
  import opened Conservation
  import opened Order
  import Agreement

  predicate NoWaits(binds: seq<Bind>) {
    forall i :: 0 <= i < |binds| ==> !binds[i].Wait?
  }

  /** No layer has sequences, and no remapping waits. */
  predicate Plain(p: Profile) {
    forall l :: 0 <= l < |p.layers| ==> PlainLayer(p.layers[l])
  }

  predicate PlainLayer(layer: Layer) {
    layer.sequenceRemappings == [] && forall j :: 0 <= j < |layer.basicRemappings| ==> NoWaits(layer.basicRemappings[j].binds)
  }

  /** The events asked for, without their delays. */
  function EventsOf(asked: seq<Due>): (events: seq<OutputEvent>)
    ensures |events| == |asked|
    ensures forall i :: 0 <= i < |asked| ==> events[i] == asked[i].event
  {
    seq(|asked|, i requires 0 <= i < |asked| => asked[i].event)
  }

  /** What an event asks for in layer `l` of the profile, as written. */
  function Typing(p: Profile, l: nat, e: InputEvent): seq<OutputEvent> {
    if l < |p.layers| then EventsOf(Translation(p.layers[l].basicRemappings, e)) else []
  }

  function LayerBehind(p: Profile, l: nat, op: Op): nat {
    match op
    case Iterate(Some(e)) => if l < |p.layers| then TranslatedLayer(p.layers[l].basicRemappings, e, l) else l
    case ChangeLayer(n) => if n < |p.layers| then n else l
    case _ => l
  }

  /** The layer after `ops`, read off the profile. */
  function LayerNow(p: Profile, ops: seq<Op>): nat {
    if ops == [] then p.defaultLayer else LayerBehind(p, LayerNow(p, ops[..|ops| - 1]), ops[|ops| - 1])
  }

  /** What the keys of `ops` ask for, one after the other, each in the layer it comes in. */
  function Typed(p: Profile, ops: seq<Op>): seq<OutputEvent> {
    if ops == [] then []
    else
      var before, last := ops[..|ops| - 1], ops[|ops| - 1];
      Typed(p, before) + if last.Iterate? && last.key.Some? then Typing(p, LayerNow(p, before), last.key.value) else []
  }

  function OutputOf(sent: Sent): OutputEvent {
    match sent
    case Flushed(entry, _) => entry.event
    case Forwarded(event) => event
  }

  /** What the daemon got, in order. */
  function SentOutputs(sent: seq<Sent>): (outputs: seq<OutputEvent>)
    ensures |outputs| == |sent|
    ensures forall i :: 0 <= i < |sent| ==> outputs[i] == OutputOf(sent[i])
  {
    seq(|sent|, i requires 0 <= i < |sent| => OutputOf(sent[i]))
  }

  // ---------- one key ----------

  lemma {:induction false} AskedAtOnce(binds: seq<Bind>)
    requires NoWaits(binds)
    ensures forall i :: 0 <= i < |Asked(binds, 0)| ==> Asked(binds, 0)[i].delay == 0
    decreases |binds|
  {
    if binds != [] {
      assert !binds[0].Wait? && NoWaits(binds[1..]);
      AskedAtOnce(binds[1..]);
    }
  }

  lemma TranslatedAtOnce(layer: Layer, e: InputEvent)
    requires PlainLayer(layer)
    ensures var asked := Translation(layer.basicRemappings, e);
      forall i :: 0 <= i < |asked| ==> asked[i].delay == 0
  {
    RemappedAt(layer.basicRemappings, e);
    match Remapped(layer.basicRemappings, e)
    case Some(binds) => AskedAtOnce(binds);
    case None =>
  }

  lemma {:induction false} AllDue(clock: Clock, tick: nat, asked: seq<Due>, now: nat)
    requires Monotone(clock) && clock(tick + |asked|) <= now && forall i :: 0 <= i < |asked| ==> asked[i].delay == 0
    ensures forall i :: 0 <= i < |asked| ==> Entries(clock, tick, asked)[i].due <= now
    decreases |asked|
  {
    if asked != [] {
      assert asked[0].delay == 0;
      AllDue(clock, tick + 1, asked[1..], now);
    }
  }

  /** Entries flushed one behind the other send their events. */
  lemma FlushSends(sent: seq<Sent>, clock: Clock, tick: nat, asked: seq<Due>, now: nat)
    ensures SentOutputs(sent + FlushedAt(Entries(clock, tick, asked), now)) == SentOutputs(sent) + EventsOf(asked)
  {
    forall i | 0 <= i < |asked|
      ensures Entries(clock, tick, asked)[i].event == asked[i].event
    {
      EntryAt(clock, tick, asked, i);
    }
  }

  /** A flush of outputs that were asked for at once sends them all, in order. */
  lemma {:induction false} FlushAll(clock: Clock, a: Out, b: Out, asked: seq<Due>)
    requires Monotone(clock) && a.queue == [] && forall i :: 0 <= i < |asked| ==> asked[i].delay == 0
    requires b.queue == Entries(clock, a.ticks, asked) && b.ticks == a.ticks + |asked| && b.sent == a.sent
    ensures Flush(clock, b).queue == [] && SentOutputs(Flush(clock, b).sent) == SentOutputs(a.sent) + EventsOf(asked)
  {
    var now := clock(b.ticks);
    if asked != [] {
      AllDue(clock, a.ticks, asked, now);
      PartitionKeeps(b.queue, now, 0, |b.queue|, |b.queue|);
      assert b.queue[0..] == b.queue;
      FlushSends(a.sent, clock, a.ticks, asked, now);
    }
  }

  /** Between two turns: at HOME, with nothing pending and nothing queued. */
  ghost predicate Idle(p: Profile, s: Sys, layer: nat) {
    && SysFits(s) && s.profile == p && s.core.layer == layer && s.core.state == HOME_STATE_IDX && s.core.timer.None?
    && !s.core.paused && s.core.out.queue == []
  }

  lemma PlainStates(p: Profile, cp: Compiled, l: nat)
    requires WellFormed(p) && CompileProfile(p) == Some(cp) && Plain(p) && l < |cp.states|
    ensures l < |p.layers| && cp.states[l] == [HOME_STATE] && PlainLayer(p.layers[l])
  {
    assert CompileLayer(p.layers[l]) == Some((cp.states[l], cp.basics[l]));
    assert ParseLayer(p.layers[l]) == [];
  }

  /** At HOME of a layer without sequences a key is translated, and nothing else happens before the flush. */
  lemma KeyTranslated(p: Profile, clock: Clock, s: Sys, layer: nat, e: InputEvent, c1: Core, c2: Core)
    requires Idle(p, s, layer) && Plain(p)
    requires c1 == s.core.(calls := s.core.calls + 1) && c2 == Deliver(s.cp, clock, c1, e)
    ensures IterateWithin(s.cp, clock, s.core, Some(e), 1) == Some(c2.(out := Flush(clock, c2.out)))
    ensures c2.state == HOME_STATE_IDX && c2.timer.None? && !c2.paused
  {
    var t := HOME_STATE.fallback;
    PlainStates(p, s.cp, layer);
    Agreement.PlainKey(s.cp, clock, s.core, e, t, c1);
    assert t.outputs[..0] == [];
    assert RunOutputs(s.cp, clock, c1, t.outputs, Some(e)) == c2;
  }

  /** Translating an event at once leaves what it asks for in the queue. */
  lemma DeliverTypes(p: Profile, cp: Compiled, clock: Clock, c: Core, e: InputEvent)
    requires Running(p, cp, c) && Monotone(clock) && PlainLayer(p.layers[c.layer]) && c.out.queue == []
    ensures var r, asked := Deliver(cp, clock, c, e), Translation(p.layers[c.layer].basicRemappings, e);
      && Flush(clock, r.out).queue == []
      && SentOutputs(Flush(clock, r.out).sent) == SentOutputs(c.out.sent) + EventsOf(asked)
      && r.layer == TranslatedLayer(p.layers[c.layer].basicRemappings, e, c.layer)
  {
    var r, asked := Deliver(cp, clock, c, e), Translation(p.layers[c.layer].basicRemappings, e);
    DeliverAsks(p, cp, clock, c, e);
    TranslatedAtOnce(p.layers[c.layer], e);
    assert [] + Entries(clock, c.out.ticks, asked) == Entries(clock, c.out.ticks, asked);
    FlushAll(clock, c.out, r.out, asked);
  }

  /** The turn of a key sends exactly what the layer as written asks for. */
  lemma KeyTyped(p: Profile, clock: Clock, s: Sys, layer: nat, e: InputEvent) returns (r: Sys)
    requires Idle(p, s, layer) && Plain(p) && Monotone(clock)
    ensures StepWithin(clock, s, Iterate(Some(e)), 1) == Some(r) && Idle(p, r, LayerBehind(p, layer, Iterate(Some(e))))
    ensures SentOutputs(r.core.out.sent) == SentOutputs(s.core.out.sent) + Typing(p, layer, e)
  {
    var c1 := s.core.(calls := s.core.calls + 1);
    var c2 := Deliver(s.cp, clock, c1, e);
    PlainStates(p, s.cp, layer);
    KeyTranslated(p, clock, s, layer, e, c1, c2);
    DeliverTypes(p, s.cp, clock, c1, e);
    r := s.(core := c2.(out := Flush(clock, c2.out)));
  }

  // ---------- runs ----------

  lemma StepTyped(p: Profile, clock: Clock, s: Sys, layer: nat, op: Op) returns (r: Sys)
    requires Idle(p, s, layer) && Plain(p) && Monotone(clock) && (op.Iterate? || op.ChangeLayer?)
    ensures StepWithin(clock, s, op, 1) == Some(r) && Idle(p, r, LayerBehind(p, layer, op))
    ensures SentOutputs(r.core.out.sent) == SentOutputs(s.core.out.sent) +
      if op.Iterate? && op.key.Some? then Typing(p, layer, op.key.value) else []
  {
    match op
    case Iterate(Some(e)) => r := KeyTyped(p, clock, s, layer, e);
    case Iterate(None) => r := s;
    case ChangeLayer(n) =>
      CompiledFits(p, s.cp);
      r := StepWithin(clock, s, op, 1).value;
  }

  /** Over any run of keys, timeouts and layer changes of a plain profile, calls do not nest, nothing stays queued, and what the
      daemon gets is, event by event and in order, what the keys ask for: the outputs of the remapping that waits for the key in
      the layer it comes in, or the key itself. */
  lemma {:induction false} PlainRunTypes(p: Profile, clock: Clock, ops: seq<Op>) returns (r: Sys)
    requires WellFormed(p) && CompileProfile(p).Some? && Plain(p) && Monotone(clock) && KeysAndLayers(ops)
    ensures SysFits(StartMapper(p)) && OpsFormed(ops) && RunWithin(clock, StartMapper(p), ops, 1) == Some(r)
    ensures Idle(p, r, LayerNow(p, ops)) && SentOutputs(r.core.out.sent) == Typed(p, ops)
    decreases |ops|
  {
    StartFits(p);
    if ops == [] {
      r := StartMapper(p);
    } else {
      var before, last := ops[..|ops| - 1], ops[|ops| - 1];
      var s := PlainRunTypes(p, clock, before);
      assert last.Iterate? || last.ChangeLayer?;
      r := StepTyped(p, clock, s, LayerNow(p, before), last);
    }
  }

  /** The keys among the inputs. */
  function KeysOf(inputs: seq<InputEvent>): seq<OutputEvent> {
    if inputs == [] then []
    else
      var last := inputs[|inputs| - 1];
      KeysOf(inputs[..|inputs| - 1]) + if last.KeyEvent? then [KeyOutput(last.keyCode, last.eventType)] else []
  }

  /** A profile whose layers are empty. */
  predicate Blank(p: Profile) {
    forall l :: 0 <= l < |p.layers| ==> p.layers[l].basicRemappings == [] && p.layers[l].sequenceRemappings == []
  }

  lemma BlankTyping(p: Profile, l: nat, e: InputEvent)
    requires Blank(p) && l < |p.layers|
    ensures Typing(p, l, e) == if e.KeyEvent? then [KeyOutput(e.keyCode, e.eventType)] else []
  {
    var asked := Translation(p.layers[l].basicRemappings, e);
    assert p.layers[l].basicRemappings == [];
    if e.KeyEvent? {
      assert asked == [Due(0, KeyOutput(e.keyCode, e.eventType))];
    }
  }

  lemma KeysNext(inputs: seq<InputEvent>, last: InputEvent)
    ensures KeysOf(inputs + [last]) == KeysOf(inputs) + if last.KeyEvent? then [KeyOutput(last.keyCode, last.eventType)] else []
  {
    assert (inputs + [last])[..|inputs|] == inputs;
  }

  lemma BlankBehind(p: Profile, l: nat, op: Op)
    requires Blank(p) && l < |p.layers|
    ensures LayerBehind(p, l, op) < |p.layers|
  {
    assert p.layers[l].basicRemappings == [];
  }

  lemma {:induction false} BlankTyped(p: Profile, ops: seq<Op>)
    requires Blank(p) && LayersInRange(p)
    ensures LayerNow(p, ops) < |p.layers| && Typed(p, ops) == KeysOf(Inputs(ops))
    decreases |ops|
  {
    if ops != [] {
      var before, last := ops[..|ops| - 1], ops[|ops| - 1];
      BlankTyped(p, before);
      BlankBehind(p, LayerNow(p, before), last);
      if last.Iterate? && last.key.Some? {
        BlankTyping(p, LayerNow(p, before), last.key.value);
        KeysNext(Inputs(before), last.key.value);
      } else {
        assert Inputs(before) + [] == Inputs(before);
      }
    }
  }

  /** A profile with nothing in it hands every key on, in order. */
  lemma BlankHandsOn(p: Profile, clock: Clock, ops: seq<Op>) returns (r: Sys)
    requires WellFormed(p) && Blank(p) && Monotone(clock) && KeysAndLayers(ops)
    ensures CompileProfile(p).Some? && SysFits(StartMapper(p)) && OpsFormed(ops)
    ensures RunWithin(clock, StartMapper(p), ops, 1) == Some(r) && r.core.out.queue == []
    ensures SentOutputs(r.core.out.sent) == KeysOf(Inputs(ops))
  {
    assert Plain(p);
    ProfileRejected(p);
    forall i | 0 <= i < |p.layers|
      ensures StateMachine.Compile(ParseLayer(p.layers[i])).Some?
    {
      assert ParseLayer(p.layers[i]) == [];
    }
    r := PlainRunTypes(p, clock, ops);
    BlankTyped(p, ops);
  }

  lemma OnRelease(remapping: BasicRemapping, key: KeyCode, other: KeyCode, layer: nat)
    requires remapping == BasicRemapping(KeyRelease(key), [PressKey(other)])
    ensures EventsOf(Translation([remapping], KeyEvent(key, KeyEventType.Press))) == [KeyOutput(key, KeyEventType.Press)]
    ensures EventsOf(Translation([remapping], KeyEvent(key, KeyEventType.Release))) == [KeyOutput(other, KeyEventType.Press)]
    ensures TranslatedLayer([remapping], KeyEvent(key, KeyEventType.Press), layer) == layer
  {
    var binds := [PressKey(other)];
    var press, release := KeyEvent(key, KeyEventType.Press), KeyEvent(key, KeyEventType.Release);
    assert [remapping][1..] == [] && binds[1..] == [];
    assert Asked(binds, 0) == [Due(0, KeyOutput(other, KeyEventType.Press))];
    assert Remapped([remapping], press) == Remapped([], press) == None;
    assert Remapped([remapping], release) == Some(binds);
    assert Translation([remapping], press) == [Due(0, KeyOutput(key, KeyEventType.Press))];
  }

  lemma TwoTyped(p: Profile, e1: InputEvent, e2: InputEvent, ops: seq<Op>)
    requires ops == [Iterate(Some(e1)), Iterate(Some(e2))] && LayerBehind(p, p.defaultLayer, ops[0]) == p.defaultLayer
    ensures Typed(p, ops) == Typing(p, p.defaultLayer, e1) + Typing(p, p.defaultLayer, e2)
  {
    var one := [ops[0]];
    assert ops[..1] == one && one[..0] == [];
    assert Typed(p, one) == [] + Typing(p, p.defaultLayer, e1);
  }

  /** A remapping that waits for the release of a key answers the release and not the press. */
  lemma ReleaseAnswered(p: Profile, clock: Clock, key: KeyCode, other: KeyCode, ops: seq<Op>) returns (r: Sys)
    requires WellFormed(p) && CompileProfile(p).Some? && Plain(p) && Monotone(clock)
    requires p.layers[p.defaultLayer].basicRemappings == [BasicRemapping(KeyRelease(key), [PressKey(other)])]
    requires ops == [Iterate(Some(KeyEvent(key, KeyEventType.Press))), Iterate(Some(KeyEvent(key, KeyEventType.Release)))]
    ensures SysFits(StartMapper(p)) && OpsFormed(ops) && RunWithin(clock, StartMapper(p), ops, 1) == Some(r)
    ensures SentOutputs(r.core.out.sent) == [KeyOutput(key, KeyEventType.Press), KeyOutput(other, KeyEventType.Press)]
  {
    OnRelease(p.layers[p.defaultLayer].basicRemappings[0], key, other, p.defaultLayer);
    TwoTyped(p, KeyEvent(key, KeyEventType.Press), KeyEvent(key, KeyEventType.Release), ops);
    r := PlainRunTypes(p, clock, ops);
  }
}
