/** The reference: no automaton, only the pending word and the lists the user wrote, scanned at every event. */
module Matching {
  import opened Options
  import opened Profiles
  import opened Trie
  import opened Acceptance
  import opened Outputs
  import opened OutputQueue
  import opened Profiling
  import opened MapperRuns

  /** Where every input event ends up. */
  datatype Account =
    | Passed(event: InputEvent)                         // handed to basic translation
    | Fired(s: Sequence, events: seq<InputEvent>)       // a sequence ran its binds and used up `events`
    | Dropped(events: seq<InputEvent>)                  // swallowed with nothing to show for it
    | Bypassed(event: InputEvent)                       // passed through while paused

  /** `word` is the pending word; `waited` says that the minimum wait after it has run out. */
  datatype Matcher =
    Matcher(layer: nat, word: seq<InputEvent>, waited: bool, timer: Option<nat>, paused: bool, out: Out, account: seq<Account>)

  datatype MSys = MSys(profile: Profile, matcher: Matcher)

  function StartMatcher(p: Profile): MSys {
    MSys(p, Matcher(p.defaultLayer, [], false, None, false, EMPTY_OUT, []))
  }

  // ---------- scanning ----------

  /** The first sequence, from number `i` on, whose trigger word starts with `word`. */
  function ScanFrom(seqs: seq<Sequence>, word: seq<InputEvent>, i: nat): (r: Option<nat>)
    requires i <= |seqs|
    ensures r.Some? ==> i <= r.value < |seqs| && word <= Word(seqs[r.value])
    ensures r.None? ==> forall m :: i <= m < |seqs| ==> !(word <= Word(seqs[m]))
    decreases |seqs| - i
  {
    if i == |seqs| then None
    else if word <= Word(seqs[i]) then Some(i)
    else ScanFrom(seqs, word, i + 1)
  }

  function Scan(seqs: seq<Sequence>, word: seq<InputEvent>): (r: Option<nat>)
    ensures r.Some? ==> r.value < |seqs| && word <= Word(seqs[r.value])
    ensures r.None? ==> forall m :: 0 <= m < |seqs| ==> !(word <= Word(seqs[m]))
  {
    ScanFrom(seqs, word, 0)
  }

  /** The timer written after event number `d` of `s`. */
  function TimerAfter(s: Sequence, d: nat): Option<Timer> {
    if 0 < d <= |s.nodes| then s.nodes[d - 1].timer else None
  }

  /** `word` is all of `s`, and no wait follows it. */
  predicate IsComplete(s: Sequence, word: seq<InputEvent>) {
    |word| == |s.nodes| && TimerAfter(s, |word|).None?
  }

  function FindRemapping(remappings: seq<BasicRemapping>, event: InputEvent): Option<seq<Bind>> {
    if remappings == [] then None
    else if BasicTriggerToInput(remappings[0].trigger) == event then Some(remappings[0].binds)
    else FindRemapping(remappings[1..], event)
  }

  ghost predicate MatcherOk(p: Profile, x: Matcher) {
    && WellFormed(p) && x.layer < |p.layers|
    && (x.paused ==> x.out.queue == [] && x.timer.None?)
  }

  function Rules(p: Profile, x: Matcher): seq<Sequence>
    requires MatcherOk(p, x)
  {
    ParseLayer(p.layers[x.layer])
  }

  /** The sequence the pending word is read by. */
  function Reading(p: Profile, x: Matcher): Option<Sequence>
    requires MatcherOk(p, x)
  {
    var seqs := Rules(p, x);
    match Scan(seqs, x.word)
    case Some(m) => if x.word == [] then None else Some(seqs[m])
    case None => None
  }

  /** A minimum wait after the pending word has not run out yet. */
  predicate Blocked(p: Profile, x: Matcher)
    requires MatcherOk(p, x)
  {
    !x.waited && Reading(p, x).Some? && IsMinimum(TimerAfter(Reading(p, x).value, |x.word|))
  }

  /** The pending events that have not been passed on: all of them, unless the sequence releases. */
  function Unreleased(s: Sequence, word: seq<InputEvent>): seq<InputEvent> {
    if s.behavior == SequenceBehavior.Release then [] else word
  }

  function HeldWord(p: Profile, x: Matcher): seq<InputEvent>
    requires MatcherOk(p, x)
  {
    match Reading(p, x)
    case Some(s) => Unreleased(s, x.word)
    case None => x.word
  }

  // ---------- elementary moves ----------

  function Reset(x: Matcher): Matcher {
    x.(word := [], waited := false, timer := None)
  }

  function MoveTo(x: Matcher, layer: Option<nat>): Matcher {
    match layer
    case None => x
    case Some(n) => Reset(x).(layer := n)
  }

  function Note(x: Matcher, entry: Account): Matcher {
    x.(account := x.account + [entry])
  }

  function Pass(p: Profile, clock: Clock, x: Matcher, event: InputEvent): Matcher
    requires MatcherOk(p, x)
  {
    var remapping := FindRemapping(p.layers[x.layer].basicRemappings, event);
    MoveTo(Note(x, Passed(event)).(out := DeliverOut(clock, x.out, event, remapping)), DeliverSwap(remapping))
  }

  function EmitOne(clock: Clock, x: Matcher, bind: Bind): Matcher {
    MoveTo(x.(out := EmitOut(clock, x.out, bind)), LastSwap([bind]))
  }

  function EmitEach(clock: Clock, x: Matcher, binds: seq<Bind>): Matcher {
    if binds == [] then x
    else EmitOne(clock, EmitEach(clock, x, binds[..|binds| - 1]), binds[|binds| - 1])
  }

  /** Run the binds of `s`, which used up `events`. */
  function Fire(clock: Clock, x: Matcher, s: Sequence, events: seq<InputEvent>): Matcher {
    EmitEach(clock, Note(Reset(x), Fired(s, events)), s.binds)
  }

  function Arm(clock: Clock, x: Matcher, timer: Option<Timer>): Matcher {
    match timer
    case None => x.(timer := None)
    case Some(t) => x.(timer := Some(t.ms + clock(x.out.ticks)), out := x.out.(ticks := x.out.ticks + 1))
  }

  // ---------- one event ----------

  lemma PassOk(p: Profile, clock: Clock, x: Matcher, event: InputEvent)
    requires MatcherOk(p, x) && !x.paused
    ensures MatcherOk(p, Pass(p, clock, x, event)) && !Pass(p, clock, x, event).paused
    ensures Pass(p, clock, x, event).word == x.word || Pass(p, clock, x, event).word == []
  {
    var remapping := FindRemapping(p.layers[x.layer].basicRemappings, event);
    FoundBelow(p.layers[x.layer].basicRemappings, event, |p.layers|) by {
      assert LayerSwapsBelow(p.layers[x.layer], |p.layers|);
    }
    if remapping.Some? {
      LastSwapBelow(remapping.value, |p.layers|);
    }
  }

  lemma {:induction false} FoundBelow(remappings: seq<BasicRemapping>, event: InputEvent, layers: nat)
    requires forall j :: 0 <= j < |remappings| ==> SwapsBelow(remappings[j].binds, layers)
    ensures FindRemapping(remappings, event).Some? ==> SwapsBelow(FindRemapping(remappings, event).value, layers)
  {
    if remappings != [] {
      FoundBelow(remappings[1..], event, layers);
    }
  }

  lemma {:induction false} EmitEachOk(p: Profile, clock: Clock, x: Matcher, binds: seq<Bind>)
    requires MatcherOk(p, x) && !x.paused && SwapsBelow(binds, |p.layers|)
    ensures var r := EmitEach(clock, x, binds);
      MatcherOk(p, r) && !r.paused && (r.word == x.word || r.word == []) && r.account == x.account
    decreases |binds|
  {
    if binds != [] {
      EmitEachOk(p, clock, x, binds[..|binds| - 1]);
      LastSwapBelow([binds[|binds| - 1]], |p.layers|);
    }
  }

  lemma RuleBelow(p: Profile, x: Matcher, m: nat)
    requires MatcherOk(p, x) && m < |Rules(p, x)|
    ensures SwapsBelow(Rules(p, x)[m].binds, |p.layers|)
  {
    assert LayerSwapsBelow(p.layers[x.layer], |p.layers|);
  }

  /** The next event of sequence number `m` has come. */
  function Advance(p: Profile, clock: Clock, x: Matcher, m: nat, e: InputEvent): (r: Matcher)
    requires MatcherOk(p, x) && !x.paused && m < |Rules(p, x)|
    ensures MatcherOk(p, r) && !r.paused && |r.word| <= |x.word| + 1
  {
    var s, word := Rules(p, x)[m], x.word + [e];
    var releases := s.behavior == SequenceBehavior.Release;
    if IsComplete(s, word) then
      var x1 := if releases then (PassOk(p, clock, Reset(x), e); Pass(p, clock, Reset(x), e)) else Reset(x);
      RuleBelow(p, x, m);
      EmitEachOk(p, clock, Note(Reset(x1), Fired(s, Unreleased(s, word))), s.binds);
      Fire(clock, x1, s, Unreleased(s, word))
    else
      var x1 := Arm(clock, x.(word := word, waited := false), TimerAfter(s, |word|));
      if releases then (PassOk(p, clock, x1, e); Pass(p, clock, x1, e)) else x1
  }

  /** What a Default sequence gives back at once: the first pending event, then the current one. */
  function GiveBack(p: Profile, clock: Clock, x: Matcher, e: Option<InputEvent>): (r: Matcher)
    requires MatcherOk(p, x) && !x.paused && x.word != []
    ensures MatcherOk(p, r) && !r.paused && r.word == []
  {
    PassOk(p, clock, Reset(x), x.word[0]);
    var x1 := Pass(p, clock, Reset(x), x.word[0]);
    if e.Some? then (PassOk(p, clock, x1, e.value); Pass(p, clock, x1, e.value)) else x1
  }

  /** The pending word comes to nothing: a Default sequence gives its events back, first event first, then the
      current one, then the others as if they came anew. */
  function Abandon(p: Profile, clock: Clock, x: Matcher, e: Option<InputEvent>): (r: Matcher)
    requires MatcherOk(p, x) && !x.paused
    ensures MatcherOk(p, r) && !r.paused && |r.word| <= |x.word|
    decreases |x.word|, 1, 0
  {
    var current := if e.Some? then [e.value] else [];
    if x.waited then Note(Reset(x), Dropped(HeldWord(p, x) + current))
    else if Reading(p, x).Some? && Reading(p, x).value.behavior == SequenceBehavior.Default then
      MatchAll(p, clock, GiveBack(p, clock, x, e), x.word[1..])
    else
      var x1 := Note(Reset(x), Dropped(HeldWord(p, x)));
      if e.Some? then (PassOk(p, clock, x1, e.value); Pass(p, clock, x1, e.value)) else x1
  }

  function MatchEvent(p: Profile, clock: Clock, x: Matcher, e: InputEvent): (r: Matcher)
    requires MatcherOk(p, x)
    ensures MatcherOk(p, r) && r.paused == x.paused && |r.word| <= |x.word| + 1
    decreases |x.word|, 2, 0
  {
    if x.paused then Note(x, Bypassed(e)).(out := ForwardOut(x.out, e))
    else
      var found := if Blocked(p, x) then None else Scan(Rules(p, x), x.word + [e]);
      match found
      case Some(m) => Advance(p, clock, x, m, e)
      case None => Abandon(p, clock, x, Some(e))
  }

  function MatchAll(p: Profile, clock: Clock, x: Matcher, events: seq<InputEvent>): (r: Matcher)
    requires MatcherOk(p, x) && !x.paused
    ensures MatcherOk(p, r) && !r.paused && |r.word| <= |x.word| + |events|
    decreases |x.word| + |events|, 0, |events|
  {
    if events == [] then x
    else MatchAll(p, clock, MatchEvent(p, clock, x, events[0]), events[1..])
  }

  // ---------- the clock, and everything else that can happen ----------

  /** The timer after the pending word has run out. */
  function Expire(p: Profile, clock: Clock, x: Matcher): (r: Matcher)
    requires MatcherOk(p, x) && !x.paused
    ensures MatcherOk(p, r) && !r.paused
  {
    match Reading(p, x)
    case None => x
    case Some(s) =>
      match TimerAfter(s, |x.word|)
      case None => x
      case Some(MaximumWait(_)) => Abandon(p, clock, x, None)
      case Some(MinimumWait(_)) =>
        if |x.word| == |s.nodes| then
          RuleBelow(p, x, Scan(Rules(p, x), x.word).value);
          EmitEachOk(p, clock, Note(Reset(x), Fired(s, Unreleased(s, x.word))), s.binds);
          Fire(clock, x, s, Unreleased(s, x.word))
        else x.(waited := true, timer := None)
  }

  function MatchTick(p: Profile, clock: Clock, x: Matcher): (r: Matcher)
    requires MatcherOk(p, x)
    ensures MatcherOk(p, r) && r.paused == x.paused
  {
    if x.timer.None? then x
    else
      var x1 := x.(out := x.out.(ticks := x.out.ticks + 1));
      if x.timer.value <= clock(x.out.ticks) then Expire(p, clock, x1) else x1
  }

  function MatchIterate(p: Profile, clock: Clock, x: Matcher, key: Option<InputEvent>): (r: Matcher)
    requires MatcherOk(p, x)
    ensures MatcherOk(p, r) && r.paused == x.paused
  {
    var x1 := MatchTick(p, clock, x);
    var x2 := if key.Some? then MatchEvent(p, clock, x1, key.value) else x1;
    x2.(out := Flush(clock, x2.out))
  }

  /** No basic trigger comes twice, and no two sequences of a layer clash. */
  predicate Acceptable(p: Profile)
    requires NormalProfile(p)
  {
    forall i :: 0 <= i < |p.layers| ==>
      !RepeatsTrigger(p.layers[i]) && ClashFree(ParseLayer(p.layers[i]), |ParseLayer(p.layers[i])|)
  }

  ghost predicate MSysOk(s: MSys) {
    MatcherOk(s.profile, s.matcher)
  }

  function MatchStep(clock: Clock, s: MSys, op: Op): (r: MSys)
    requires MSysOk(s) && (op.ChangeProfile? ==> WellFormed(op.profile))
    ensures MSysOk(r)
  {
    var x := s.matcher;
    var leave := Note(x, Dropped(HeldWord(s.profile, x)));
    match op
    case Iterate(key) => s.(matcher := MatchIterate(s.profile, clock, x, key))
    case ChangeLayer(layer) => if layer < |s.profile.layers| then s.(matcher := MoveTo(leave, Some(layer))) else s
    case ChangeProfile(p) => if Acceptable(p) then MSys(p, MoveTo(leave, Some(p.defaultLayer))) else s
    case Pause =>
      s.(matcher := x.(paused := true, timer := None, out := x.out.(queue := [], dropped := x.out.dropped + x.out.queue)))
    case Resume => s.(matcher := x.(paused := false))
  }

  function MatchRun(clock: Clock, s: MSys, ops: seq<Op>): (r: MSys)
    requires MSysOk(s) && forall i :: 0 <= i < |ops| ==> ops[i].ChangeProfile? ==> WellFormed(ops[i].profile)
    ensures MSysOk(r)
  {
    if ops == [] then s else MatchStep(clock, MatchRun(clock, s, ops[..|ops| - 1]), ops[|ops| - 1])
  }
}
