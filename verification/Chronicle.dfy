/** The log of a run, explained item by item from the profile as the user wrote it. */
module Chronicle {
  import opened Options
  import opened Profiles
  import opened Automata
  import StateMachine
  import opened Outputs
  import opened OutputQueue
  import opened MapperModel
  import opened Profiling
  import opened MapperRuns
  import opened Bounded
  import opened Effects

  /** Which layer of which profile is current. */
  datatype Spot = Spot(profile: Profile, layer: nat)

  /** A note, with the number of the clock reading its outputs start at; or a move made from outside. */
  datatype Item = Noted(note: LogEntry, tick: nat) | Moved(spot: Spot)

  function Remappings(w: Spot): seq<BasicRemapping> {
    if w.layer < |w.profile.layers| then w.profile.layers[w.layer].basicRemappings else []
  }

  /** The outputs that stand behind a note: those of the translated event, or that of the bind on its own. */
  function Behind(w: Spot, note: LogEntry): seq<Due> {
    match note
    case Delivered(e) => Translation(Remappings(w), e)
    case Emitted(bind) => Asked([bind], 0)
    case Queued(_) => []
  }

  /** Where one is after an item. */
  function Next(w: Spot, item: Item): Spot {
    match item
    case Noted(Delivered(e), _) => w.(layer := TranslatedLayer(Remappings(w), e, w.layer))
    case Noted(Emitted(bind), _) => w.(layer := LayerAfter([bind], w.layer))
    case Noted(Queued(_), _) => w
    case Moved(spot) => spot
  }

  /** Where one is after all of `items`. */
  function After(w: Spot, items: seq<Item>): Spot
    decreases |items|
  {
    if items == [] then w else After(Next(w, items[0]), items[1..])
  }

  /** What an item adds to the log. */
  function Block(clock: Clock, w: Spot, item: Item): seq<LogEntry> {
    match item
    case Noted(note, tick) => [note] + Notes(Entries(clock, tick, Behind(w, note)))
    case Moved(_) => []
  }

  /** What all of `items` add to the log. */
  function Told(clock: Clock, w: Spot, items: seq<Item>): seq<LogEntry>
    decreases |items|
  {
    if items == [] then [] else Block(clock, w, items[0]) + Told(clock, Next(w, items[0]), items[1..])
  }

  /** The readings behind the notes follow each other, from number `from` on and before number `to`. */
  predicate InTime(w: Spot, items: seq<Item>, from: nat, to: nat)
    decreases |items|
  {
    if items == [] then from <= to
    else
      match items[0]
      case Noted(note, tick) =>
        !note.Queued? && from <= tick && InTime(Next(w, items[0]), items[1..], tick + |Behind(w, note)|, to)
      case Moved(_) => InTime(Next(w, items[0]), items[1..], from, to)
  }

  /** From `a` to `b` the log has grown by what `items` tell, and they lead from `w` to `w'`. */
  predicate Recounts(clock: Clock, w: Spot, a: Out, items: seq<Item>, w': Spot, b: Out) {
    && After(w, items) == w' && InTime(w, items, a.ticks, b.ticks)
    && b.log == a.log + Told(clock, w, items)
  }

  // ---------- one account behind another ----------

  lemma RestOfBoth(a: seq<Item>, b: seq<Item>)
    requires a != []
    ensures a + b != [] && (a + b)[1..] == a[1..] + b && (a + b)[0] == a[0]
  {
  }

  lemma {:induction false} AfterBoth(w: Spot, a: seq<Item>, b: seq<Item>)
    ensures After(w, a + b) == After(After(w, a), b)
    decreases |a|
  {
    if a == [] {
      assert a + b == b;
    } else {
      RestOfBoth(a, b);
      AfterBoth(Next(w, a[0]), a[1..], b);
    }
  }

  lemma Regroup(a: seq<LogEntry>, b: seq<LogEntry>, c: seq<LogEntry>)
    ensures (a + b) + c == a + (b + c)
  {
  }

  lemma {:induction false} ToldBoth(clock: Clock, w: Spot, a: seq<Item>, b: seq<Item>)
    ensures Told(clock, w, a + b) == Told(clock, w, a) + Told(clock, After(w, a), b)
    decreases |a|
  {
    if a == [] {
      assert a + b == b;
    } else {
      var w' := Next(w, a[0]);
      RestOfBoth(a, b);
      ToldBoth(clock, w', a[1..], b);
      Regroup(Block(clock, w, a[0]), Told(clock, w', a[1..]), Told(clock, After(w, a), b));
    }
  }

  lemma {:induction false} InTimeBoth(w: Spot, a: seq<Item>, b: seq<Item>, from: nat, mid: nat, to: nat)
    requires InTime(w, a, from, mid) && InTime(After(w, a), b, mid, to)
    ensures InTime(w, a + b, from, to)
    decreases |a|
  {
    if a == [] {
      assert a + b == b;
      Earlier(w, b, from, mid, to);
    } else {
      RestOfBoth(a, b);
      InTimeBoth(Next(w, a[0]), a[1..], b, if a[0].Noted? then a[0].tick + |Behind(w, a[0].note)| else from, mid, to);
    }
  }

  lemma {:induction false} Earlier(w: Spot, items: seq<Item>, from: nat, mid: nat, to: nat)
    requires InTime(w, items, mid, to) && from <= mid
    ensures InTime(w, items, from, to)
    decreases |items|
  {
    if items != [] && items[0].Moved? {
      Earlier(Next(w, items[0]), items[1..], from, mid, to);
    }
  }

  lemma Join(clock: Clock, w: Spot, a: Out, i1: seq<Item>, w1: Spot, b: Out, i2: seq<Item>, w2: Spot, c: Out)
    requires Recounts(clock, w, a, i1, w1, b) && Recounts(clock, w1, b, i2, w2, c)
    ensures Recounts(clock, w, a, i1 + i2, w2, c)
  {
    AfterBoth(w, i1, i2);
    ToldBoth(clock, w, i1, i2);
    InTimeBoth(w, i1, i2, a.ticks, b.ticks, c.ticks);
    Regroup(a.log, Told(clock, w, i1), Told(clock, w1, i2));
  }

  /** Time may pass without a note. */
  lemma Quiet(clock: Clock, w: Spot, a: Out, b: Out)
    requires a.log == b.log && a.ticks <= b.ticks
    ensures Recounts(clock, w, a, [], w, b)
  {
  }

  lemma OneNote(clock: Clock, w: Spot, a: Out, note: LogEntry, w': Spot, b: Out)
    requires !note.Queued? && b == Asking(clock, Noting(a, note), Behind(w, note)) && w' == Next(w, Noted(note, a.ticks))
    ensures Recounts(clock, w, a, [Noted(note, a.ticks)], w', b)
  {
    var items := [Noted(note, a.ticks)];
    assert items[1..] == [];
    assert Told(clock, w, items) == [note] + Notes(Entries(clock, a.ticks, Behind(w, note)));
  }

  // ---------- one call ----------

  predicate NoMoves(items: seq<Item>) {
    forall i :: 0 <= i < |items| ==> items[i].Noted?
  }

  /** The mapper runs `p`, and is in a layer of it. */
  ghost predicate At(p: Profile, cp: Compiled, c: Core) {
    Fit(cp, c) && NormalProfile(p) && CompileProfile(p) == Some(cp)
  }

  /** The account of a call on profile `p`. */
  ghost predicate Explains(p: Profile, clock: Clock, c: Core, items: seq<Item>, r: Core) {
    NoMoves(items) && Recounts(clock, Spot(p, c.layer), c.out, items, Spot(p, r.layer), r.out)
  }

  lemma ExplainsOn(p: Profile, clock: Clock, a: Core, i1: seq<Item>, b: Core, i2: seq<Item>, c: Core) returns (items: seq<Item>)
    requires Explains(p, clock, a, i1, b) && Explains(p, clock, b, i2, c)
    ensures Explains(p, clock, a, items, c)
  {
    items := i1 + i2;
    Join(clock, Spot(p, a.layer), a.out, i1, Spot(p, b.layer), b.out, i2, Spot(p, c.layer), c.out);
  }

  lemma RunOutputTold(p: Profile, cp: Compiled, clock: Clock, c: Core, output: StateMachineOutput, prev: Option<InputEvent>)
      returns (items: seq<Item>)
    requires At(p, cp, c)
    ensures Explains(p, clock, c, items, RunOutput(cp, clock, c, output, prev))
  {
    var r := RunOutput(cp, clock, c, output, prev);
    items := [];
    match output
    case ProcessInput(_) => Quiet(clock, Spot(p, c.layer), c.out, r.out);
    case BasicTranslation(event) =>
      var e := if event.Some? then event else prev;
      if e.Some? {
        DeliverAsks(p, cp, clock, c, e.value);
        items := [Noted(Delivered(e.value), c.out.ticks)];
        OneNote(clock, Spot(p, c.layer), c.out, Delivered(e.value), Spot(p, r.layer), r.out);
      } else {
        Quiet(clock, Spot(p, c.layer), c.out, r.out);
      }
    case Emit(bind) =>
      EmitAsks(clock, c, bind);
      items := [Noted(Emitted(bind), c.out.ticks)];
      OneNote(clock, Spot(p, c.layer), c.out, Emitted(bind), Spot(p, r.layer), r.out);
  }

  lemma {:induction false} RunOutputsTold(p: Profile, cp: Compiled, clock: Clock, c: Core, outputs: seq<StateMachineOutput>,
                                          prev: Option<InputEvent>, r: Core) returns (items: seq<Item>)
    requires At(p, cp, c) && !c.paused && OutputsBelow(outputs, |cp.states|)
    requires r == RunOutputs(cp, clock, c, outputs, prev)
    ensures Explains(p, clock, c, items, r)
    decreases |outputs|
  {
    if outputs == [] {
      items := [];
      Quiet(clock, Spot(p, c.layer), c.out, r.out);
    } else {
      var before := outputs[..|outputs| - 1];
      var c' := RunOutputs(cp, clock, c, before, prev);
      var i1 := RunOutputsTold(p, cp, clock, c, before, prev, c');
      var i2 := RunOutputTold(p, cp, clock, c', outputs[|outputs| - 1], prev);
      items := ExplainsOn(p, clock, c, i1, c', i2, r);
    }
  }

  lemma {:induction false} ApplyTold(p: Profile, cp: Compiled, clock: Clock, c: Core, t: Transition, prev: Option<InputEvent>,
                                     depth: nat, r: Core) returns (items: seq<Item>)
    requires At(p, cp, c) && !c.paused && Applies(cp, c, t) && ApplyWithin(cp, clock, c, t, prev, depth) == Some(r)
    ensures Explains(p, clock, c, items, r)
    decreases depth, 3, 0
  {
    var c1 := Enter(clock, c, t);
    var c2 := RunOutputs(cp, clock, c1, t.outputs, prev);
    Quiet(clock, Spot(p, c.layer), c.out, c1.out);
    var i2 := RunOutputsTold(p, cp, clock, c1, t.outputs, prev, c2);
    var i3 := ProcessAllTold(p, cp, clock, c2, RedoEvents(t.outputs, prev), depth, r);
    items := ExplainsOn(p, clock, c, [], c1, i2, c2);
    items := ExplainsOn(p, clock, c, items, c2, i3, r);
  }

  lemma ProcessApplies(p: Profile, cp: Compiled, clock: Clock, c: Core, e: InputEvent, depth: nat, r: Core, c1: Core,
                       t: Transition)
    requires At(p, cp, c) && !c.paused && ProcessWithin(cp, clock, c, e, depth) == Some(r)
    requires c1 == c.(calls := c.calls + 1) && t == Chosen(cp, c, e)
    ensures depth > 0 && At(p, cp, c1) && Applies(cp, c1, t) && ApplyWithin(cp, clock, c1, t, Some(e), depth - 1) == Some(r)
  {
    ChosenApplies(cp, c, e);
  }

  lemma {:induction false} ProcessTold(p: Profile, cp: Compiled, clock: Clock, c: Core, e: InputEvent, depth: nat, r: Core)
      returns (items: seq<Item>)
    requires At(p, cp, c) && ProcessWithin(cp, clock, c, e, depth) == Some(r)
    ensures Explains(p, clock, c, items, r)
    decreases depth, 1, 0
  {
    if c.paused {
      items := [];
      Quiet(clock, Spot(p, c.layer), c.out, r.out);
    } else {
      var c1, t := c.(calls := c.calls + 1), Chosen(cp, c, e);
      ProcessApplies(p, cp, clock, c, e, depth, r, c1, t);
      items := ApplyTold(p, cp, clock, c1, t, Some(e), depth - 1, r);
    }
  }

  lemma {:induction false} ProcessAllTold(p: Profile, cp: Compiled, clock: Clock, c: Core, events: seq<InputEvent>,
                                          depth: nat, r: Core) returns (items: seq<Item>)
    requires At(p, cp, c) && !c.paused && ProcessAllWithin(cp, clock, c, events, depth) == Some(r)
    ensures Explains(p, clock, c, items, r)
    decreases depth, 2, |events|
  {
    if events == [] {
      items := [];
      Quiet(clock, Spot(p, c.layer), c.out, r.out);
    } else {
      var c' := ProcessWithin(cp, clock, c, events[0], depth).value;
      var i1 := ProcessTold(p, cp, clock, c, events[0], depth, c');
      var i2 := ProcessAllTold(p, cp, clock, c', events[1..], depth, r);
      items := ExplainsOn(p, clock, c, i1, c', i2, r);
    }
  }

  lemma TickTold(p: Profile, cp: Compiled, clock: Clock, c: Core, depth: nat, r: Core) returns (items: seq<Item>)
    requires At(p, cp, c) && TickWithin(cp, clock, c, depth) == Some(r)
    ensures Explains(p, clock, c, items, r)
  {
    if c.timer.Some? && c.timer.value <= clock(c.out.ticks) {
      TimerApplies(cp, c);
      Quiet(clock, Spot(p, c.layer), c.out, ReadClock(c).out);
      var i2 := ApplyTold(p, cp, clock, ReadClock(c), cp.states[c.layer][c.state].timer.value, None, depth, r);
      items := ExplainsOn(p, clock, c, [], ReadClock(c), i2, r);
    } else {
      items := [];
      Quiet(clock, Spot(p, c.layer), c.out, r.out);
    }
  }

  lemma IterateTold(p: Profile, cp: Compiled, clock: Clock, c: Core, key: Option<InputEvent>, depth: nat, r: Core)
      returns (items: seq<Item>)
    requires At(p, cp, c) && IterateWithin(cp, clock, c, key, depth) == Some(r)
    ensures Explains(p, clock, c, items, r)
  {
    var c1 := TickWithin(cp, clock, c, depth).value;
    var i1 := TickTold(p, cp, clock, c, depth, c1);
    var c2 := if key.Some? then ProcessWithin(cp, clock, c1, key.value, depth).value else c1;
    var i2 := [];
    if key.Some? {
      i2 := ProcessTold(p, cp, clock, c1, key.value, depth, c2);
    } else {
      Quiet(clock, Spot(p, c1.layer), c1.out, c2.out);
    }
    items := ExplainsOn(p, clock, c, i1, c1, i2, c2);
    FlushExact(clock, c2.out);
    Quiet(clock, Spot(p, c2.layer), c2.out, r.out);
    items := ExplainsOn(p, clock, c, items, c2, [], r);
  }

  // ---------- whole runs ----------

  /** What another thread asks for, as a move: the layer if there is one of that number, the default layer of a profile that
      compiles. */
  function Move(w: Spot, op: Op): seq<Item>
    requires OpFormed(op)
  {
    match op
    case ChangeLayer(n) => if n < |w.profile.layers| then [Moved(w.(layer := n))] else []
    case ChangeProfile(p) => if Uncompilable(p) then [] else [Moved(Spot(p, p.defaultLayer))]
    case _ => []
  }

  /** `items` are what `op` may lead to: notes for a turn of the main loop, the move for a call from another thread. */
  predicate Belongs(w: Spot, op: Op, items: seq<Item>)
    requires OpFormed(op)
  {
    if op.Iterate? then NoMoves(items) else items == Move(w, op)
  }

  function Here(s: Sys): Spot {
    Spot(s.profile, s.core.layer)
  }

  lemma StepTold(clock: Clock, s: Sys, op: Op, depth: nat, r: Sys) returns (items: seq<Item>)
    requires SysFits(s) && OpFormed(op) && StepWithin(clock, s, op, depth) == Some(r)
    ensures Belongs(Here(s), op, items) && Recounts(clock, Here(s), s.core.out, items, Here(r), r.core.out)
  {
    if op.Iterate? {
      items := IterateTold(s.profile, s.cp, clock, s.core, op.key, depth, r.core);
    } else {
      items := Move(Here(s), op);
      if op.ChangeProfile? {
        ProfileRejected(op.profile);
      }
      if items != [] {
        assert items[1..] == [];
      }
    }
  }

  /** The items of all operations, one part for each. */
  function All(parts: seq<seq<Item>>): seq<Item> {
    if parts == [] then [] else All(parts[..|parts| - 1]) + parts[|parts| - 1]
  }

  predicate AllBelong(w: Spot, ops: seq<Op>, parts: seq<seq<Item>>)
    requires OpsFormed(ops)
  {
    |parts| == |ops| &&
    (ops == [] ||
     var n := |ops| - 1;
     AllBelong(w, ops[..n], parts[..n]) && Belongs(After(w, All(parts[..n])), ops[n], parts[n]))
  }

  /** Any run, on whatever accepted profiles: its log is an account of notes and moves, in which behind each note of a
      translated event come the outputs of its remapping in the layer that is current as the profile is written, or the key
      itself; behind each note of a sequence bind that bind's own output; each due at a reading made then, plus the waits
      written before it in a remapping. */
  lemma {:induction false} RunTold(clock: Clock, s: Sys, ops: seq<Op>, depth: nat, r: Sys) returns (parts: seq<seq<Item>>)
    requires SysFits(s) && OpsFormed(ops) && RunWithin(clock, s, ops, depth) == Some(r)
    ensures AllBelong(Here(s), ops, parts)
    ensures Recounts(clock, Here(s), s.core.out, All(parts), Here(r), r.core.out)
    decreases |ops|
  {
    if ops == [] {
      parts := [];
      Quiet(clock, Here(s), s.core.out, r.core.out);
    } else {
      var n := |ops| - 1;
      var s1 := RunWithin(clock, s, ops[..n], depth).value;
      var before := RunTold(clock, s, ops[..n], depth, s1);
      var items := StepTold(clock, s1, ops[n], depth, r);
      parts := before + [items];
      assert parts[..n] == before;
      Join(clock, Here(s), s.core.out, All(before), Here(s1), s1.core.out, items, Here(r), r.core.out);
    }
  }

  // ---------- what follows the note of a sequence bind ----------

  /** `due` is what the clock read at one of the readings from number `from` on, before number `to`. */
  ghost predicate ReadAt(clock: Clock, due: nat, from: nat, to: nat) {
    exists t: nat :: from <= t < to && due == clock(t)
  }

  /** Behind the note of a bind, at place `i`, comes exactly one entry if the bind is a key or a script, due without delay when
      the clock was read, and none if it is a layer swap or a wait. */
  ghost predicate FollowedUp(clock: Clock, log: seq<LogEntry>, i: nat, from: nat, to: nat)
    requires i < |log| && log[i].Emitted?
  {
    var bind := log[i].bind;
    if HasOutput(bind) then
      && i + 1 < |log| && log[i + 1].Queued? && AsksFor(bind, log[i + 1].entry.event)
      && ReadAt(clock, log[i + 1].entry.due, from, to)
      && (i + 2 < |log| ==> !log[i + 2].Queued?)
    else i + 1 < |log| ==> !log[i + 1].Queued?
  }

  lemma {:induction false} StartsWithNote(clock: Clock, w: Spot, items: seq<Item>, from: nat, to: nat)
    requires InTime(w, items, from, to)
    ensures from <= to && (Told(clock, w, items) != [] ==> !Told(clock, w, items)[0].Queued?)
    decreases |items|
  {
    if items != [] {
      var item := items[0];
      StartsWithNote(clock, Next(w, item), items[1..], if item.Noted? then item.tick + |Behind(w, item.note)| else from, to);
    }
  }

  lemma FollowedBehind(clock: Clock, before: seq<LogEntry>, log: seq<LogEntry>, i: nat, from: nat, to: nat, from': nat,
                       all: seq<LogEntry>)
    requires i < |log| && log[i].Emitted? && FollowedUp(clock, log, i, from, to) && from' <= from && all == before + log
    ensures all[|before| + i] == log[i] && FollowedUp(clock, all, |before| + i, from', to)
  {
    assert forall j :: 0 <= j < |log| ==> all[|before| + j] == log[j];
    if HasOutput(log[i].bind) {
      var t: nat :| from <= t < to && log[i + 1].entry.due == clock(t);
      assert from' <= t < to;
    }
  }

  lemma EmittedBlock(clock: Clock, w: Spot, bind: Bind, tick: nat, rest: seq<LogEntry>, to: nat, all: seq<LogEntry>)
    requires rest != [] ==> !rest[0].Queued?
    requires all == Block(clock, w, Noted(Emitted(bind), tick)) + rest && tick + |Asked([bind], 0)| <= to
    ensures all[0] == Emitted(bind) && FollowedUp(clock, all, 0, tick, to)
  {
    var asked := Asked([bind], 0);
    assert [bind][1..] == [];
    if HasOutput(bind) {
      var entry := Entry(clock(tick), asked[0].event);
      assert asked[1..] == [] && Entries(clock, tick, asked) == [entry] && [entry][1..] == [];
      assert Notes([entry]) == [Queued(entry)];
      assert all[1] == Queued(entry) && all[2..] == rest;
    } else {
      assert Notes([]) == [] && all[1..] == rest;
    }
  }

  lemma {:induction false} NotesQueued(entries: seq<Entry>)
    ensures |Notes(entries)| == |entries| && forall i :: 0 <= i < |Notes(entries)| ==> Notes(entries)[i].Queued?
    decreases |entries|
  {
    if entries != [] {
      NotesQueued(entries[1..]);
    }
  }

  lemma {:induction false} TellsFollowUp(clock: Clock, w: Spot, items: seq<Item>, from: nat, to: nat, i: nat)
    requires InTime(w, items, from, to) && i < |Told(clock, w, items)| && Told(clock, w, items)[i].Emitted?
    ensures FollowedUp(clock, Told(clock, w, items), i, from, to)
    decreases |items|
  {
    var item := items[0];
    var w', from' := Next(w, item), if item.Noted? then item.tick + |Behind(w, item.note)| else from;
    var block, rest := Block(clock, w, item), Told(clock, Next(w, item), items[1..]);
    if i >= |block| {
      TellsFollowUp(clock, w', items[1..], from', to, i - |block|);
      FollowedBehind(clock, block, rest, i - |block|, from', to, from, block + rest);
    } else {
      NotesQueued(Entries(clock, item.tick, Behind(w, item.note)));
      StartsWithNote(clock, w', items[1..], from', to);
      EmittedBlock(clock, w, item.note.bind, item.tick, rest, to, block + rest);
      FollowedBehind(clock, [], block + rest, 0, item.tick, to, from, block + rest);
    }
  }

  lemma RecountsFollowUp(clock: Clock, w: Spot, a: Out, items: seq<Item>, w': Spot, b: Out, i: nat)
    requires Recounts(clock, w, a, items, w', b) && |a.log| <= i < |b.log| && b.log[i].Emitted?
    ensures FollowedUp(clock, b.log, i, a.ticks, b.ticks)
  {
    var told, at := Told(clock, w, items), i - |a.log|;
    assert told[at] == b.log[i];
    TellsFollowUp(clock, w, items, a.ticks, b.ticks, at);
    FollowedBehind(clock, a.log, told, at, a.ticks, b.ticks, a.ticks, b.log);
  }

  /** Over any run, on whatever accepted profiles: behind each note that a sequence bind ran comes its press, release or script,
      queued once, without delay, at a reading made in the run; behind a layer swap or a wait comes no output. */
  lemma RunFollowsUp(clock: Clock, s: Sys, ops: seq<Op>, depth: nat, r: Sys, i: nat)
    requires SysFits(s) && OpsFormed(ops) && RunWithin(clock, s, ops, depth) == Some(r)
    requires |s.core.out.log| <= i < |r.core.out.log| && r.core.out.log[i].Emitted?
    ensures FollowedUp(clock, r.core.out.log, i, s.core.out.ticks, r.core.out.ticks)
  {
    var parts := RunTold(clock, s, ops, depth, r);
    RecountsFollowUp(clock, Here(s), s.core.out, All(parts), Here(r), r.core.out, i);
  }
}
