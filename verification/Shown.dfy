/** What one key makes the mapper translate and run, by the behaviour of the sequences that read the pending word. */
module Shown {
  import opened Options
  import opened Profiles
  import opened Automata
  import opened Trie
  import opened Outputs
  import opened OutputQueue
  import opened MapperModel
  import opened Profiling
  import opened MapperRuns
  import opened Matching
  import opened Refinement
  import opened Conservation
  import opened Histories
  import opened Growth

  /** Event number `d` is the last trigger of `s`. */
  predicate Ends(s: Sequence, d: nat) {
    0 < d == |s.nodes| && s.nodes[d - 1].timer.None?
  }

  /** The wait behind event number `d` of `s` is a minimum wait. */
  predicate MustWait(s: Sequence, d: nat) {
    0 < d <= |s.nodes| && s.nodes[d - 1].timer.Some? && s.nodes[d - 1].timer.value.MinimumWait?
  }

  /** The binds of `s`, one after the other. */
  function Binds(binds: seq<Bind>): (notes: seq<LogEntry>)
    ensures |notes| == |binds|
    ensures forall i :: 0 <= i < |binds| ==> notes[i] == Emitted(binds[i])
  {
    seq(|binds|, i requires 0 <= i < |binds| => Emitted(binds[i]))
  }

  /** The sequence that reads the pending word and `e`: the first one whose word begins so, unless a minimum wait blocks it. */
  ghost predicate GoesOn(p: Profile, x: Matcher, m: nat, e: InputEvent) {
    && MatcherOk(p, x) && !x.paused && m < |Rules(p, x)| && x.word + [e] <= Word(Rules(p, x)[m])
    && (forall o :: 0 <= o < m ==> !(x.word + [e] <= Word(Rules(p, x)[o])))
    && !Held(p, x)
  }

  /** A minimum wait behind the pending word has not run out. */
  ghost predicate Held(p: Profile, x: Matcher)
    requires MatcherOk(p, x)
  {
    !x.waited && x.word != [] && exists m: nat :: Reads(p, x, m) && MustWait(Rules(p, x)[m], |x.word|)
  }

  /** Sequence `m` is the first whose word begins with the pending word. */
  ghost predicate Reads(p: Profile, x: Matcher, m: nat)
    requires MatcherOk(p, x)
  {
    && m < |Rules(p, x)| && x.word <= Word(Rules(p, x)[m])
    && forall o :: 0 <= o < m ==> !(x.word <= Word(Rules(p, x)[o]))
  }

  /** No sequence reads the pending word and `e`. */
  ghost predicate Fails(p: Profile, x: Matcher, e: InputEvent) {
    && MatcherOk(p, x) && !x.paused
    && (Held(p, x) || forall m :: 0 <= m < |Rules(p, x)| ==> !(x.word + [e] <= Word(Rules(p, x)[m])))
  }

  lemma {:induction false} ScanIsFirst(seqs: seq<Sequence>, word: seq<InputEvent>, i: nat, m: nat)
    requires i <= m < |seqs| && word <= Word(seqs[m]) && forall o :: i <= o < m ==> !(word <= Word(seqs[o]))
    ensures ScanFrom(seqs, word, i) == Some(m)
    decreases m - i
  {
    if i < m {
      ScanIsFirst(seqs, word, i + 1, m);
    }
  }

  lemma ReadsScans(p: Profile, x: Matcher, m: nat)
    requires MatcherOk(p, x) && Reads(p, x, m)
    ensures Scan(Rules(p, x), x.word) == Some(m)
  {
    ScanIsFirst(Rules(p, x), x.word, 0, m);
  }

  lemma {:induction false} ScanSkips(seqs: seq<Sequence>, word: seq<InputEvent>, i: nat)
    requires i <= |seqs| && ScanFrom(seqs, word, i).Some?
    ensures forall o :: i <= o < ScanFrom(seqs, word, i).value ==> !(word <= Word(seqs[o]))
    decreases |seqs| - i
  {
    if !(word <= Word(seqs[i])) {
      ScanSkips(seqs, word, i + 1);
    }
  }

  lemma HeldIsBlocked(p: Profile, x: Matcher)
    requires MatcherOk(p, x)
    ensures Held(p, x) <==> Blocked(p, x)
  {
    if Held(p, x) {
      var m: nat :| Reads(p, x, m) && MustWait(Rules(p, x)[m], |x.word|);
      ReadsScans(p, x, m);
    }
    if Blocked(p, x) {
      var m := Scan(Rules(p, x), x.word).value;
      ScanSkips(Rules(p, x), x.word, 0);
      assert Reads(p, x, m);
    }
  }

  lemma {:induction false} SameBinds(binds: seq<Bind>)
    ensures EmittedAll(binds) == Binds(binds)
    decreases |binds|
  {
    if binds != [] {
      SameBinds(binds[..|binds| - 1]);
    }
  }

  lemma PassShows(p: Profile, clock: Clock, x: Matcher, e: InputEvent)
    requires MatcherOk(p, x) && !x.paused
    ensures Visible(Pass(p, clock, x, e).out.log) == Visible(x.out.log) + [Delivered(e)]
  {
    DeliverVisible(clock, x.out, e, FindRemapping(p.layers[x.layer].basicRemappings, e));
  }

  lemma FireShows(clock: Clock, x: Matcher, s: Sequence, events: seq<InputEvent>)
    ensures Visible(Fire(clock, x, s, events).out.log) == Visible(x.out.log) + Binds(s.binds)
  {
    EmitEachVisible(clock, Note(Reset(x), Fired(s, events)), s.binds);
    SameBinds(s.binds);
  }

  /** The event itself if the sequence releases. */
  function LetThrough(s: Sequence, e: InputEvent): seq<LogEntry> {
    if s.behavior == SequenceBehavior.Release then [Delivered(e)] else []
  }

  /** What an event that goes on with `s`, as number `d` of its word, shows. */
  function OnTheWay(s: Sequence, d: nat, e: InputEvent): seq<LogEntry> {
    LetThrough(s, e) + if Ends(s, d) then Binds(s.binds) else []
  }

  lemma AdvanceIs(p: Profile, clock: Clock, x: Matcher, m: nat, e: InputEvent)
    requires GoesOn(p, x, m, e)
    ensures MatchEvent(p, clock, x, e) == Advance(p, clock, x, m, e)
    ensures IsComplete(Rules(p, x)[m], x.word + [e]) <==> Ends(Rules(p, x)[m], |x.word| + 1)
  {
    HeldIsBlocked(p, x);
    ScanIsFirst(Rules(p, x), x.word + [e], 0, m);
  }

  lemma CompletingShows(p: Profile, clock: Clock, x: Matcher, m: nat, e: InputEvent)
    requires MatcherOk(p, x) && !x.paused && m < |Rules(p, x)| && IsComplete(Rules(p, x)[m], x.word + [e])
    ensures var s := Rules(p, x)[m];
      Visible(Advance(p, clock, x, m, e).out.log) ==
        Visible(x.out.log) + LetThrough(s, e) + Binds(s.binds)
  {
    var s, word, x1 := Rules(p, x)[m], x.word + [e], Reset(x);
    if s.behavior == SequenceBehavior.Release {
      PassOk(p, clock, x1, e);
      PassShows(p, clock, x1, e);
      x1 := Pass(p, clock, x1, e);
    }
    FireShows(clock, x1, s, Unreleased(s, word));
  }

  lemma LengtheningShows(p: Profile, clock: Clock, x: Matcher, m: nat, e: InputEvent)
    requires MatcherOk(p, x) && !x.paused && m < |Rules(p, x)| && !IsComplete(Rules(p, x)[m], x.word + [e])
    ensures var r, s := Advance(p, clock, x, m, e), Rules(p, x)[m];
      && Visible(r.out.log) == Visible(x.out.log) + LetThrough(s, e)
      && (r.word == x.word + [e] || (s.behavior == SequenceBehavior.Release && r.word == []))
  {
    var s, word := Rules(p, x)[m], x.word + [e];
    var x1 := Arm(clock, x.(word := word, waited := false), TimerAfter(s, |word|));
    if s.behavior == SequenceBehavior.Release {
      PassOk(p, clock, x1, e);
      PassShows(p, clock, x1, e);
    }
  }

  lemma Regroup(a: seq<LogEntry>, b: seq<LogEntry>, c: seq<LogEntry>)
    ensures (a + b) + c == a + (b + c)
  {
  }

  /** An event that goes on with a sequence shows itself if the sequence releases, and the binds if it is the last. */
  lemma AdvanceShows(p: Profile, clock: Clock, x: Matcher, m: nat, e: InputEvent)
    requires GoesOn(p, x, m, e)
    ensures Visible(MatchEvent(p, clock, x, e).out.log) == Visible(x.out.log) + OnTheWay(Rules(p, x)[m], |x.word| + 1, e)
  {
    AdvanceIs(p, clock, x, m, e);
    if Ends(Rules(p, x)[m], |x.word| + 1) {
      CompletingShows(p, clock, x, m, e);
      Regroup(Visible(x.out.log), LetThrough(Rules(p, x)[m], e), Binds(Rules(p, x)[m].binds));
    } else {
      LengtheningShows(p, clock, x, m, e);
      assert LetThrough(Rules(p, x)[m], e) + [] == LetThrough(Rules(p, x)[m], e);
    }
  }

  /** The pending word is read by a Default sequence, and its events are held back. */
  ghost predicate HoldsBack(p: Profile, x: Matcher)
    requires MatcherOk(p, x)
  {
    !x.waited && x.word != [] && exists m: nat :: Reads(p, x, m) && Rules(p, x)[m].behavior == SequenceBehavior.Default
  }

  lemma HoldsGivesBack(p: Profile, x: Matcher)
    requires MatcherOk(p, x)
    ensures HoldsBack(p, x) <==> GivesBack(p, x)
  {
    if HoldsBack(p, x) {
      var m: nat :| Reads(p, x, m) && Rules(p, x)[m].behavior == SequenceBehavior.Default;
      ReadsScans(p, x, m);
    }
    if GivesBack(p, x) {
      var m := Scan(Rules(p, x), x.word).value;
      ScanSkips(Rules(p, x), x.word, 0);
      assert Reads(p, x, m);
    }
  }

  /** An event that fails a word that is not held back passes, and with a minimum wait behind it nothing does. */
  lemma FailureShows(p: Profile, clock: Clock, x: Matcher, e: InputEvent)
    requires Fails(p, x, e) && !HoldsBack(p, x)
    ensures var r := MatchEvent(p, clock, x, e);
      r.word == [] && Visible(r.out.log) == Visible(x.out.log) + if x.waited then [] else [Delivered(e)]
  {
    HeldIsBlocked(p, x);
    HoldsGivesBack(p, x);
    if !x.waited {
      var x1 := Note(Reset(x), Dropped(HeldWord(p, x)));
      PassOk(p, clock, x1, e);
      PassShows(p, clock, x1, e);
    }
  }

  lemma GiveBackShows(p: Profile, clock: Clock, x: Matcher, e: Option<InputEvent>)
    requires MatcherOk(p, x) && !x.paused && x.word != []
    ensures var r := GiveBack(p, clock, x, e);
      && Visible(r.out.log) == Visible(x.out.log) + [Delivered(x.word[0])] + (if e.Some? then [Delivered(e.value)] else [])
      && !r.waited
  {
    var x1 := Pass(p, clock, Reset(x), x.word[0]);
    PassOk(p, clock, Reset(x), x.word[0]);
    PassShows(p, clock, Reset(x), x.word[0]);
    if e.Some? {
      PassShows(p, clock, x1, e.value);
    }
  }

  /** A held word that fails gives back its first event, then the current one; the others then come anew. */
  lemma GivingBackShows(p: Profile, clock: Clock, x: Matcher, e: InputEvent) returns (x1: Matcher)
    requires Fails(p, x, e) && HoldsBack(p, x)
    ensures MatcherOk(p, x1) && !x1.paused && x1.word == [] && !x1.waited
    ensures Visible(x1.out.log) == Visible(x.out.log) + [Delivered(x.word[0])] + [Delivered(e)]
    ensures MatchEvent(p, clock, x, e) == MatchAll(p, clock, x1, x.word[1..])
  {
    HeldIsBlocked(p, x);
    HoldsGivesBack(p, x);
    x1 := GiveBack(p, clock, x, Some(e));
    GiveBackShows(p, clock, x, Some(e));
  }

  // ---------- the clock ----------

  /** The timer has run out behind the pending word, which sequence `m` reads. */
  ghost predicate RunsOut(p: Profile, clock: Clock, x: Matcher, m: nat) {
    && MatcherOk(p, x) && !x.paused && x.word != [] && Reads(p, x, m)
    && x.timer.Some? && x.timer.value <= clock(x.out.ticks)
    && |x.word| <= |Rules(p, x)[m].nodes| && Rules(p, x)[m].nodes[|x.word| - 1].timer.Some?
  }

  lemma ExpiresBy(p: Profile, clock: Clock, x: Matcher, m: nat, x0: Matcher)
    requires RunsOut(p, clock, x, m) && x0 == x.(out := x.out.(ticks := x.out.ticks + 1))
    ensures MatcherOk(p, x0) && !x0.paused && Reading(p, x0) == Some(Rules(p, x)[m])
    ensures MatchTick(p, clock, x) == Expire(p, clock, x0)
    ensures MustWait(Rules(p, x)[m], |x.word|) <==> IsMinimum(TimerAfter(Rules(p, x)[m], |x.word|))
  {
    ReadsScans(p, x, m);
  }

  /** A minimum wait at the end of a sequence runs its binds; any other only lets the word go on. */
  lemma MinimumShows(p: Profile, clock: Clock, x: Matcher, m: nat)
    requires RunsOut(p, clock, x, m) && MustWait(Rules(p, x)[m], |x.word|)
    ensures var r, s := MatchTick(p, clock, x), Rules(p, x)[m];
      if |x.word| == |s.nodes| then Visible(r.out.log) == Visible(x.out.log) + Binds(s.binds)
      else Visible(r.out.log) == Visible(x.out.log) && r.word == x.word && r.waited && r.timer.None?
  {
    var x0 := x.(out := x.out.(ticks := x.out.ticks + 1));
    ExpiresBy(p, clock, x, m, x0);
    if |x.word| == |Rules(p, x)[m].nodes| {
      FireShows(clock, x0, Rules(p, x)[m], Unreleased(Rules(p, x)[m], x.word));
    }
  }

  /** A maximum wait lets the word come to nothing without a current event: a word that is not held back shows nothing. */
  lemma MaximumShows(p: Profile, clock: Clock, x: Matcher, m: nat)
    requires RunsOut(p, clock, x, m) && !MustWait(Rules(p, x)[m], |x.word|) && !HoldsBack(p, x)
    ensures var r := MatchTick(p, clock, x);
      r.word == [] && Visible(r.out.log) == Visible(x.out.log)
  {
    var x0 := x.(out := x.out.(ticks := x.out.ticks + 1));
    ExpiresBy(p, clock, x, m, x0);
    HoldsGivesBack(p, x);
  }

  /** And one that is gives back its first event; the others then come anew. */
  lemma MaximumGivesBack(p: Profile, clock: Clock, x: Matcher, m: nat) returns (x1: Matcher)
    requires RunsOut(p, clock, x, m) && !MustWait(Rules(p, x)[m], |x.word|) && HoldsBack(p, x)
    ensures MatcherOk(p, x1) && !x1.paused && x1.word == [] && !x1.waited
    ensures Visible(x1.out.log) == Visible(x.out.log) + [Delivered(x.word[0])]
    ensures MatchTick(p, clock, x) == MatchAll(p, clock, x1, x.word[1..])
  {
    var x0 := x.(out := x.out.(ticks := x.out.ticks + 1));
    ExpiresBy(p, clock, x, m, x0);
    HoldsGivesBack(p, x);
    x1 := GiveBack(p, clock, x0, None);
    GiveBackShows(p, clock, x0, None);
  }

  // ---------- the mapper, after any run ----------

  /** What an event may show: on its way with a sequence, failing alone, or failing a word that was held back. */
  ghost predicate EventShows(p: Profile, x: Matcher, e: InputEvent, shown: seq<LogEntry>) {
    && MatcherOk(p, x)
    && (forall m: nat {:trigger GoesOn(p, x, m, e)} :: GoesOn(p, x, m, e) ==>
         shown == OnTheWay(Rules(p, x)[m], |x.word| + 1, e))
    && (Fails(p, x, e) && !HoldsBack(p, x) ==> shown == if x.waited then [] else [Delivered(e)])
    && (Fails(p, x, e) && HoldsBack(p, x) ==> [Delivered(x.word[0]), Delivered(e)] <= shown)
  }

  /** It is always one of these. */
  lemma EitherWay(p: Profile, x: Matcher, e: InputEvent)
    requires MatcherOk(p, x) && !x.paused
    ensures Fails(p, x, e) || exists m: nat :: GoesOn(p, x, m, e)
  {
    var seqs, word := Rules(p, x), x.word + [e];
    if !Fails(p, x, e) {
      assert Scan(seqs, word).Some?;
      ScanSkips(seqs, word, 0);
      assert GoesOn(p, x, Scan(seqs, word).value, e);
    }
  }

  lemma {:induction false} VisibleGrows(a: seq<LogEntry>, b: seq<LogEntry>)
    requires a <= b
    ensures Visible(a) <= Visible(b)
    decreases |b|
  {
    if |a| < |b| {
      VisibleGrows(a, b[..|b| - 1]);
    } else {
      assert a == b;
    }
  }

  lemma OneWay(p: Profile, x: Matcher, e: InputEvent, m: nat, o: nat)
    requires GoesOn(p, x, m, e) && GoesOn(p, x, o, e)
    ensures m == o
  {
  }

  lemma OnTheWayShows(p: Profile, x: Matcher, e: InputEvent, m: nat, shown: seq<LogEntry>)
    requires GoesOn(p, x, m, e) && shown == OnTheWay(Rules(p, x)[m], |x.word| + 1, e)
    ensures EventShows(p, x, e, shown)
  {
    forall o: nat | GoesOn(p, x, o, e)
      ensures shown == OnTheWay(Rules(p, x)[o], |x.word| + 1, e)
    {
      OneWay(p, x, e, m, o);
    }
  }

  lemma Prefixed(before: seq<LogEntry>, first: LogEntry, second: LogEntry, all: seq<LogEntry>) returns (shown: seq<LogEntry>)
    requires before + [first] + [second] <= all
    ensures all == before + shown && [first, second] <= shown
  {
    shown := all[|before|..];
  }

  lemma HeldShows(p: Profile, clock: Clock, x: Matcher, e: InputEvent) returns (shown: seq<LogEntry>)
    requires Fails(p, x, e) && HoldsBack(p, x)
    ensures EventShows(p, x, e, shown) && Visible(MatchEvent(p, clock, x, e).out.log) == Visible(x.out.log) + shown
  {
    var r := MatchEvent(p, clock, x, e);
    var x1 := GivingBackShows(p, clock, x, e);
    AllAdd(p, clock, x1, x.word[1..]);
    VisibleGrows(x1.out.log, r.out.log);
    shown := Prefixed(Visible(x.out.log), Delivered(x.word[0]), Delivered(e), Visible(r.out.log));
    NotBothWays(p, x, e);
  }

  lemma NotBothWays(p: Profile, x: Matcher, e: InputEvent)
    requires Fails(p, x, e)
    ensures forall m: nat :: !GoesOn(p, x, m, e)
  {
  }

  lemma MatcherShows(p: Profile, clock: Clock, x: Matcher, e: InputEvent) returns (shown: seq<LogEntry>)
    requires MatcherOk(p, x) && !x.paused
    ensures EventShows(p, x, e, shown) && Visible(MatchEvent(p, clock, x, e).out.log) == Visible(x.out.log) + shown
  {
    EitherWay(p, x, e);
    if !Fails(p, x, e) {
      var m: nat :| GoesOn(p, x, m, e);
      AdvanceShows(p, clock, x, m, e);
      shown := OnTheWay(Rules(p, x)[m], |x.word| + 1, e);
      OnTheWayShows(p, x, e, m, shown);
    } else if HoldsBack(p, x) {
      shown := HeldShows(p, clock, x, e);
    } else {
      NotBothWays(p, x, e);
      FailureShows(p, clock, x, e);
      shown := if x.waited then [] else [Delivered(e)];
    }
  }

  /** After any run of a sound profile, whatever happened in it, the turn of a key adds to what the mapper has shown just what the
      sequences that read the pending word say: on the way a Release sequence lets the event through and others swallow it, and
      with its last event a sequence runs its binds; an event that fails passes, behind a Capture or Release word alone, behind a
      Default word after its first event; and where a minimum wait has run out it is lost. */
  lemma KeyShows(p: Profile, clock: Clock, ops: seq<Op>, e: InputEvent, s: Sys, m: MSys) returns (shown: seq<LogEntry>)
    requires Sound(p) && CompileProfile(p).Some? && forall i :: 0 <= i < |ops| ==> SoundOp(ops[i])
    requires SysOk(StartMapper(p)) && MSysOk(StartMatcher(p))
    requires forall i :: 0 <= i < |ops| ==> OpOk(ops[i]) && (ops[i].ChangeProfile? ==> WellFormed(ops[i].profile))
    requires s == Run(clock, StartMapper(p), ops) && m == MatchRun(clock, StartMatcher(p), ops) && !s.core.paused
    ensures EventShows(m.profile, MatchTick(m.profile, clock, m.matcher), e, shown)
    ensures Visible(Step(clock, s, Iterate(Some(e))).core.out.log) == Visible(Tick(s.cp, clock, s.core).out.log) + shown
  {
    var w := SimStart(p);
    var w' := SimRun(w, clock, StartMapper(p), StartMatcher(p), ops);
    shown := TurnShows(w', clock, s, m, e);
  }

  lemma TurnShows(w: World, clock: Clock, s: Sys, m: MSys, e: InputEvent) returns (shown: seq<LogEntry>)
    requires Matched(w, s, m) && !s.core.paused
    ensures EventShows(m.profile, MatchTick(m.profile, clock, m.matcher), e, shown)
    ensures Visible(Step(clock, s, Iterate(Some(e))).core.out.log) == Visible(Tick(s.cp, clock, s.core).out.log) + shown
  {
    var c, x := Tick(s.cp, clock, s.core), MatchTick(m.profile, clock, m.matcher);
    SimTick(w, clock, s.core, m.matcher);
    SimEvent(w, clock, c, x, e);
    shown := MatcherShows(m.profile, clock, x, e);
    FlushExact(clock, Process(s.cp, clock, c, e).out);
  }
}
