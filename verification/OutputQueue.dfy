/** When queued outputs fall due, and what a flush sends. */
module OutputQueue {
  import opened Options
  import opened Profiles
  import opened Outputs

  // ---------- scheduling ----------

  /** The outputs of a bind list, each with the waits written before it. */
  function Schedule(binds: seq<Bind>): seq<(nat, OutputEvent)> {
    if binds == [] then []
    else
      var before := binds[..|binds| - 1];
      match BindOutput(binds[|binds| - 1])
      case Some(event) => Schedule(before) + [(TotalWait(before), event)]
      case None => Schedule(before)
  }

  /** Output number i of a bind list is queued behind what was there, due at its own clock reading plus the waits before it. */
  lemma {:induction false} BindsScheduled(clock: Clock, out: Out, binds: seq<Bind>)
    ensures var r := RunBinds(clock, out, binds);
      && |r.queue| == |out.queue| + |Schedule(binds)| && out.queue <= r.queue
      && r.ticks == out.ticks + |Schedule(binds)| && r.sent == out.sent && r.dropped == out.dropped
      && forall i :: 0 <= i < |Schedule(binds)| ==>
        r.queue[|out.queue| + i] == Entry(clock(out.ticks + i) + Schedule(binds)[i].0, Schedule(binds)[i].1)
    decreases |binds|
  {
    if binds != [] {
      BindsScheduled(clock, out, binds[..|binds| - 1]);
    }
  }

  lemma {:induction false} WaitsGrow(binds: seq<Bind>)
    ensures forall i :: 0 <= i < |Schedule(binds)| ==> Schedule(binds)[i].0 <= TotalWait(binds)
    ensures forall i, j :: 0 <= i <= j < |Schedule(binds)| ==> Schedule(binds)[i].0 <= Schedule(binds)[j].0
  {
    if binds != [] {
      WaitsGrow(binds[..|binds| - 1]);
    }
  }

  /** Along one bind list due times never decrease. */
  lemma DueTimesGrow(clock: Clock, out: Out, binds: seq<Bind>)
    requires Monotone(clock)
    ensures var queue := RunBinds(clock, out, binds).queue;
      forall i, j :: |out.queue| <= i <= j < |queue| ==> queue[i].due <= queue[j].due
  {
    BindsScheduled(clock, out, binds);
    WaitsGrow(binds);
    var queue, base := RunBinds(clock, out, binds).queue, |out.queue|;
    forall i, j | base <= i <= j < |queue|
      ensures queue[i].due <= queue[j].due
    {
      assert queue[base + (i - base)].due == clock(out.ticks + (i - base)) + Schedule(binds)[i - base].0;
      assert queue[base + (j - base)].due == clock(out.ticks + (j - base)) + Schedule(binds)[j - base].0;
    }
  }

  // ---------- flushing ----------

  /** The two-pointer partition of q[lo..hi]: entries not yet due to the front, the number of them second. */
  function Partition(q: seq<Entry>, now: nat, lo: nat, hi: nat): (r: (seq<Entry>, nat))
    requires lo <= hi <= |q|
    ensures |r.0| == |q| && lo <= r.1 <= hi
    decreases hi - lo
  {
    if lo == hi then (q, lo)
    else if q[lo].due > now then Partition(q, now, lo + 1, hi)
    else if q[hi - 1].due <= now then Partition(q, now, lo, hi - 1)
    else Partition(q[lo := q[hi - 1]][hi - 1 := q[lo]], now, lo + 1, hi - 1)
  }

  lemma SwapKeepsBag(q: seq<Entry>, i: nat, j: nat)
    requires i < |q| && j < |q|
    ensures multiset(q[i := q[j]][j := q[i]]) == multiset(q)
  {
  }

  /** Below `lo` nothing is due yet, from `hi` on everything is. */
  predicate SplitAround(q: seq<Entry>, now: nat, lo: nat, hi: nat) {
    && (forall i :: 0 <= i < lo && i < |q| ==> q[i].due > now)
    && (forall i :: hi <= i < |q| ==> q[i].due <= now)
  }

  lemma SwapSplits(q: seq<Entry>, now: nat, lo: nat, hi: nat)
    requires lo < hi - 1 < |q| && SplitAround(q, now, lo, hi) && q[lo].due <= now < q[hi - 1].due
    ensures var q' := q[lo := q[hi - 1]][hi - 1 := q[lo]];
      multiset(q') == multiset(q) && SplitAround(q', now, lo + 1, hi - 1)
  {
    SwapKeepsBag(q, lo, hi - 1);
  }

  lemma WiderSplit(q: seq<Entry>, now: nat, lo: nat, hi: nat)
    requires lo < hi <= |q| && SplitAround(q, now, lo, hi)
    ensures q[lo].due > now ==> SplitAround(q, now, lo + 1, hi)
    ensures q[hi - 1].due <= now ==> SplitAround(q, now, lo, hi - 1)
  {
  }

  /** The partition rearranges, puts exactly the entries that are not due in front, and loses none. */
  lemma {:induction false} PartitionSplits(q: seq<Entry>, now: nat, lo: nat, hi: nat)
    requires lo <= hi <= |q| && SplitAround(q, now, lo, hi)
    ensures var (r, mid) := Partition(q, now, lo, hi);
      multiset(r) == multiset(q) && SplitAround(r, now, mid, mid)
    decreases hi - lo
  {
    if lo == hi {
    } else if q[lo].due > now {
      WiderSplit(q, now, lo, hi);
      PartitionSplits(q, now, lo + 1, hi);
    } else if q[hi - 1].due <= now {
      WiderSplit(q, now, lo, hi);
      PartitionSplits(q, now, lo, hi - 1);
    } else if hi - 1 == lo {
      assert false;
    } else {
      SwapSplits(q, now, lo, hi);
      PartitionSplits(q[lo := q[hi - 1]][hi - 1 := q[lo]], now, lo + 1, hi - 1);
    }
  }

  function FlushedAt(entries: seq<Entry>, now: nat): (sent: seq<Sent>)
    ensures |sent| == |entries|
    ensures forall i :: 0 <= i < |entries| ==> sent[i] == Flushed(entries[i], now)
  {
    seq(|entries|, i requires 0 <= i < |entries| => Flushed(entries[i], now))
  }

  function Flush(clock: Clock, out: Out): Out {
    if out.queue == [] then out
    else
      var now := clock(out.ticks);
      var (q, mid) := Partition(out.queue, now, 0, |out.queue|);
      out.(queue := q[..mid], ticks := out.ticks + 1, sent := out.sent + FlushedAt(q[mid..], now))
  }

  lemma PartitionParts(queue: seq<Entry>, now: nat, q: seq<Entry>, mid: nat)
    requires (q, mid) == Partition(queue, now, 0, |queue|)
    ensures multiset(queue) == multiset(q[..mid]) + multiset(q[mid..])
    ensures forall i :: 0 <= i < mid ==> q[..mid][i].due > now
    ensures forall i :: 0 <= i < |q| - mid ==> q[mid..][i].due <= now
  {
    PartitionSplits(queue, now, 0, |queue|);
    assert q == q[..mid] + q[mid..];
  }

  /** `sent` followed by `ready`, all flushed at `now`. */
  lemma FlushedBehind(sent: seq<Sent>, ready: seq<Entry>, now: nat, sent': seq<Sent>)
    requires sent' == sent + FlushedAt(ready, now) && forall i :: 0 <= i < |ready| ==> ready[i].due <= now
    ensures sent <= sent' && SentEntries(sent'[|sent|..]) == ready
    ensures forall i :: |sent| <= i < |sent'| ==>
      sent'[i].Flushed? && sent'[i].at == now && sent'[i].entry.due <= now
  {
    assert sent'[|sent|..] == FlushedAt(ready, now);
    FlushedEntries(ready, now);
  }

  /** A flush sends what is due and keeps the rest: as a bag nothing is lost, nothing goes out early,
      and nothing that is due stays behind. */
  lemma FlushExact(clock: Clock, out: Out)
    ensures var r := Flush(clock, out);
      var now := clock(out.ticks);
      && out.sent <= r.sent && r.log == out.log && r.dropped == out.dropped
      && (forall i :: 0 <= i < |r.queue| ==> r.queue[i].due > now)
      && (forall i :: |out.sent| <= i < |r.sent| ==>
           r.sent[i].Flushed? && r.sent[i].at == now && r.sent[i].entry.due <= now)
      && multiset(out.queue) == multiset(r.queue) + multiset(SentEntries(r.sent[|out.sent|..]))
  {
    if out.queue != [] {
      var now := clock(out.ticks);
      var (q, mid) := Partition(out.queue, now, 0, |out.queue|);
      PartitionParts(out.queue, now, q, mid);
      FlushedBehind(out.sent, q[mid..], now, Flush(clock, out).sent);
    }
  }

  /** The queue entries among what was sent. */
  function SentEntries(sent: seq<Sent>): seq<Entry> {
    if sent == [] then []
    else
      var last := sent[|sent| - 1];
      SentEntries(sent[..|sent| - 1]) + if last.Flushed? then [last.entry] else []
  }

  lemma {:induction false} FlushedEntries(entries: seq<Entry>, now: nat)
    ensures SentEntries(FlushedAt(entries, now)) == entries
  {
    if entries != [] {
      var last := |entries| - 1;
      assert FlushedAt(entries, now)[..last] == FlushedAt(entries[..last], now);
      FlushedEntries(entries[..last], now);
    }
  }

  // ---------- what the partition does to the order ----------

  function Exchange(q: seq<Entry>, i: nat, j: nat): (r: seq<Entry>)
    requires i < |q| && j < |q|
    ensures |r| == |q|
  {
    q[i := q[j]][j := q[i]]
  }

  /** q[lo..hi] with its first `k` and last `k` entries exchanged, from the outside in. */
  function Mirror(q: seq<Entry>, lo: nat, hi: nat, k: nat): (r: seq<Entry>)
    requires lo + 2 * k <= hi <= |q|
    ensures |r| == |q|
    decreases k
  {
    if k == 0 then q else Mirror(Exchange(q, lo, hi - 1), lo + 1, hi - 1, k - 1)
  }

  /** They are mirrored at the middle, and the others stay. */
  lemma {:induction false} MirrorAt(q: seq<Entry>, lo: nat, hi: nat, k: nat, i: nat)
    requires lo + 2 * k <= hi <= |q| && i < |q|
    ensures Mirror(q, lo, hi, k)[i] == if lo <= i < lo + k || hi - k <= i < hi then q[lo + hi - 1 - i] else q[i]
    decreases k
  {
    if k > 0 {
      MirrorAt(Exchange(q, lo, hi - 1), lo + 1, hi - 1, k - 1, i);
    }
  }

  /** In q[lo..hi] the first `r` entries are due and the others are not. */
  predicate DueFirst(q: seq<Entry>, now: nat, lo: nat, hi: nat, r: nat) {
    && lo + r <= hi <= |q|
    && (forall i :: lo <= i < lo + r ==> q[i].due <= now)
    && (forall i :: lo + r <= i < hi ==> q[i].due > now)
  }

  function Least(a: nat, b: nat): nat {
    if a < b then a else b
  }

  /** When nothing is due, or everything is, nothing moves. */
  lemma {:induction false} PartitionKeeps(q: seq<Entry>, now: nat, lo: nat, hi: nat, r: nat)
    requires DueFirst(q, now, lo, hi, r) && (r == 0 || lo + r == hi)
    ensures Partition(q, now, lo, hi) == (q, hi - r)
    decreases hi - lo
  {
    if lo == hi {
    } else if r == 0 {
      PartitionKeeps(q, now, lo + 1, hi, 0);
    } else {
      PartitionKeeps(q, now, lo, hi - 1, r - 1);
    }
  }

  lemma ExchangeDueFirst(q: seq<Entry>, now: nat, lo: nat, hi: nat, r: nat)
    requires DueFirst(q, now, lo, hi, r) && 0 < r && lo + r < hi
    ensures var q' := Exchange(q, lo, hi - 1);
      DueFirst(q', now, lo + 1, hi - 1, r - 1) && Partition(q, now, lo, hi) == Partition(q', now, lo + 1, hi - 1)
  {
  }

  /** With the due entries in front, the partition exchanges entries mirrored at the middle, until one side is done. */
  lemma {:induction false} PartitionMirrors(q: seq<Entry>, now: nat, lo: nat, hi: nat, r: nat, k: nat)
    requires DueFirst(q, now, lo, hi, r) && k == Least(r, hi - lo - r)
    ensures Partition(q, now, lo, hi) == (Mirror(q, lo, hi, k), hi - r)
    decreases k
  {
    if k == 0 {
      PartitionKeeps(q, now, lo, hi, r);
    } else {
      ExchangeDueFirst(q, now, lo, hi, r);
      PartitionMirrors(Exchange(q, lo, hi - 1), now, lo + 1, hi - 1, r - 1, k - 1);
    }
  }

  /** What a flush sends, and what it keeps. */
  function SentNow(clock: Clock, out: Out): seq<Entry> {
    SentEntries(Flush(clock, out).sent[Least(|out.sent|, |Flush(clock, out).sent|)..])
  }

  function KeptNow(clock: Clock, out: Out): seq<Entry> {
    Flush(clock, out).queue
  }

  lemma FlushParts(clock: Clock, out: Out, q: seq<Entry>, mid: nat)
    requires mid <= |q| && (q, mid) == Partition(out.queue, clock(out.ticks), 0, |out.queue|)
    ensures out.sent <= Flush(clock, out).sent && SentNow(clock, out) == q[mid..] && KeptNow(clock, out) == q[..mid]
  {
    if out.queue != [] {
      FlushedEntries(q[mid..], clock(out.ticks));
      assert Flush(clock, out).sent[|out.sent|..] == FlushedAt(q[mid..], clock(out.ticks));
    }
  }

  lemma AllDueSent(clock: Clock, out: Out)
    requires forall i :: 0 <= i < |out.queue| ==> out.queue[i].due <= clock(out.ticks)
    ensures var r := Flush(clock, out);
      r.queue == [] && r.sent == out.sent + FlushedAt(out.queue, clock(out.ticks))
  {
    if out.queue == [] {
      assert out.sent == out.sent + FlushedAt([], clock(out.ticks));
    } else {
      PartitionKeeps(out.queue, clock(out.ticks), 0, |out.queue|, |out.queue|);
      assert out.queue[0..] == out.queue;
    }
  }

  /** A bind list queued behind whatever was there, and flushed once everything is due, is sent behind it, in the order
      written. */
  lemma BindsSentInOrder(clock: Clock, out: Out, binds: seq<Bind>, queued: Out)
    requires queued == RunBinds(clock, out, binds)
    requires forall i :: 0 <= i < |queued.queue| ==> queued.queue[i].due <= clock(queued.ticks)
    ensures var sent := Flush(clock, queued).sent;
      && Flush(clock, queued).queue == []
      && |sent| == |out.sent| + |out.queue| + |Schedule(binds)| && out.sent <= sent
      && (forall i :: 0 <= i < |out.queue| ==> sent[|out.sent| + i] == Flushed(out.queue[i], clock(queued.ticks)))
      && forall i :: 0 <= i < |Schedule(binds)| ==>
        var last := sent[|out.sent| + |out.queue| + i];
        last.Flushed? && last.entry.event == Schedule(binds)[i].1
  {
    BindsScheduled(clock, out, binds);
    AllDueSent(clock, queued);
  }

  predicate Distinct(q: seq<Entry>) {
    forall i, j :: 0 <= i < j < |q| ==> q[i] != q[j]
  }

  lemma MirrorKept(q: seq<Entry>, r: nat, k: nat)
    requires r <= |q| && Distinct(q) && k == Least(r, |q| - r)
    ensures Mirror(q, 0, |q|, k)[..|q| - r] == q[r..] <==> r == 0 || |q| - r <= 1
  {
    var m, u := Mirror(q, 0, |q|, k), |q| - r;
    if u > 0 && r > 0 {
      MirrorAt(q, 0, |q|, k, 0);
      assert m[..u][0] == q[|q| - 1] && q[r..][0] == q[r];
    }
  }

  lemma MirrorSent(q: seq<Entry>, r: nat, k: nat)
    requires r <= |q| && Distinct(q) && k == Least(r, |q| - r)
    ensures Mirror(q, 0, |q|, k)[|q| - r..] == q[..r] <==> r <= 1 || r == |q|
  {
    var m, u := Mirror(q, 0, |q|, k), |q| - r;
    if u > 0 && r > 0 {
      MirrorAt(q, 0, |q|, k, |q| - 1);
      assert m[u..][r - 1] == q[0] && q[..r][r - 1] == q[r - 1];
    }
  }

  predicate Sorted(q: seq<Entry>) {
    forall i, j :: 0 <= i <= j < |q| ==> q[i].due <= q[j].due
  }

  /** How many entries are due before the first one that is not. */
  function DueCount(q: seq<Entry>, now: nat): (r: nat)
    ensures r <= |q| && (forall i :: 0 <= i < r ==> q[i].due <= now) && (r < |q| ==> q[r].due > now)
  {
    if q == [] || q[0].due > now then 0 else 1 + DueCount(q[1..], now)
  }

  lemma SortedDueFirst(q: seq<Entry>, now: nat)
    requires Sorted(q)
    ensures DueFirst(q, now, 0, |q|, DueCount(q, now))
  {
    var r := DueCount(q, now);
    assert forall i :: r <= i < |q| ==> q[r].due <= q[i].due;
  }

  /** Both parts of a partition in the order of the queue, exactly if there is nothing to exchange. */
  ghost predicate PartsInOrder(q: seq<Entry>, r: nat, kept: seq<Entry>, sent: seq<Entry>)
    requires r <= |q|
  {
    && (sent == q[..r] <==> r <= 1 || r == |q|)
    && (kept == q[r..] <==> r == 0 || |q| - r <= 1)
  }

  lemma PartitionOrder(q: seq<Entry>, now: nat, r: nat)
    requires DueFirst(q, now, 0, |q|, r) && Distinct(q)
    ensures var (m, mid) := Partition(q, now, 0, |q|); PartsInOrder(q, r, m[..mid], m[mid..])
  {
    var k := Least(r, |q| - r);
    PartitionMirrors(q, now, 0, |q|, r, k);
    MirrorKept(q, r, k);
    MirrorSent(q, r, k);
  }

  /** A flush of a queue of different entries sorted by due time, of which `r` are due: it sends these in order exactly if
      there is at most one or nothing else, and keeps the others in order exactly if there is at most one or none is due. */
  lemma FlushOrder(clock: Clock, out: Out)
    requires Sorted(out.queue) && Distinct(out.queue)
    ensures out.sent <= Flush(clock, out).sent
    ensures PartsInOrder(out.queue, DueCount(out.queue, clock(out.ticks)), KeptNow(clock, out), SentNow(clock, out))
  {
    var (m, mid) := Partition(out.queue, clock(out.ticks), 0, |out.queue|);
    SortedDueFirst(out.queue, clock(out.ticks));
    PartitionOrder(out.queue, clock(out.ticks), DueCount(out.queue, clock(out.ticks)));
    FlushParts(clock, out, m, mid);
  }

  /** A list of binds on an empty queue, flushed at any time after: what is due goes out and what is not stays as written
      exactly if nothing is due, everything is, or one of two outputs is. */
  lemma BindsFlushOrder(clock: Clock, out: Out, binds: seq<Bind>, late: Out)
    requires Monotone(clock) && out.queue == [] && late.queue == RunBinds(clock, out, binds).queue && Distinct(late.queue)
    ensures var r := DueCount(late.queue, clock(late.ticks));
      && late.sent <= Flush(clock, late).sent
      && (SentNow(clock, late) == late.queue[..r] && KeptNow(clock, late) == late.queue[r..] <==>
           r == 0 || r == |late.queue| || (r == 1 && |late.queue| == 2))
  {
    DueTimesGrow(clock, out, binds);
    FlushOrder(clock, late);
  }

  // ---------- several flushes ----------

  /** Flushes one after the other, with nothing queued in between; `ticks` tells which clock reading each of them makes. */
  function FlushEach(clock: Clock, out: Out, ticks: seq<nat>): Out {
    if ticks == [] then out
    else Flush(clock, FlushEach(clock, out, ticks[..|ticks| - 1]).(ticks := ticks[|ticks| - 1]))
  }

  /** What they send, flush by flush. */
  function SentEach(clock: Clock, out: Out, ticks: seq<nat>): seq<Entry> {
    if ticks == [] then []
    else
      var before := ticks[..|ticks| - 1];
      SentEach(clock, out, before) + SentNow(clock, FlushEach(clock, out, before).(ticks := ticks[|ticks| - 1]))
  }

  /** Each of them sends its share in the order of due times. */
  ghost predicate EachSorted(clock: Clock, out: Out, ticks: seq<nat>) {
    ticks == [] ||
    var before := ticks[..|ticks| - 1];
    EachSorted(clock, out, before) && Sorted(SentNow(clock, FlushEach(clock, out, before).(ticks := ticks[|ticks| - 1])))
  }

  ghost predicate AllBefore(a: seq<Entry>, b: seq<Entry>) {
    forall x, y :: x in a && y in b ==> x.due < y.due
  }

  ghost predicate Among(a: seq<Entry>, q: seq<Entry>) {
    forall x :: x in a ==> x in q
  }

  /** What is kept is due later than all that is sent. */
  lemma KeptIsLater(clock: Clock, out: Out)
    ensures AllBefore(SentNow(clock, out), KeptNow(clock, out))
    ensures Among(SentNow(clock, out), out.queue) && Among(KeptNow(clock, out), out.queue)
  {
    var q, now := out.queue, clock(out.ticks);
    var (m, mid) := Partition(q, now, 0, |q|);
    PartitionParts(q, now, m, mid);
    FlushParts(clock, out, m, mid);
    forall x | x in m[mid..] || x in m[..mid]
      ensures x in q
    {
      assert x in multiset(q);
    }
  }

  lemma SortedBoth(a: seq<Entry>, b: seq<Entry>)
    requires AllBefore(a, b)
    ensures Sorted(a + b) <==> Sorted(a) && Sorted(b)
  {
    if Sorted(a + b) {
      assert forall i :: 0 <= i < |a| ==> a[i] == (a + b)[i];
      assert forall i :: 0 <= i < |b| ==> b[i] == (a + b)[|a| + i];
    }
  }

  lemma NextIsLater(all: seq<Entry>, q: seq<Entry>, sent: seq<Entry>, kept: seq<Entry>)
    requires AllBefore(all, q) && Among(sent, q) && Among(kept, q) && AllBefore(sent, kept)
    ensures AllBefore(all, sent) && AllBefore(all + sent, kept)
  {
  }

  /** Over several flushes of any queue the outputs go out in the order of their due times exactly if each flush sends its
      share in that order: from one flush to the next the order is always right. */
  lemma {:induction false} SeveralFlushes(clock: Clock, out: Out, ticks: seq<nat>)
    ensures AllBefore(SentEach(clock, out, ticks), FlushEach(clock, out, ticks).queue)
    ensures Sorted(SentEach(clock, out, ticks)) <==> EachSorted(clock, out, ticks)
    decreases |ticks|
  {
    if ticks != [] {
      var before := ticks[..|ticks| - 1];
      var next := FlushEach(clock, out, before).(ticks := ticks[|ticks| - 1]);
      SeveralFlushes(clock, out, before);
      KeptIsLater(clock, next);
      NextIsLater(SentEach(clock, out, before), next.queue, SentNow(clock, next), KeptNow(clock, next));
      SortedBoth(SentEach(clock, out, before), SentNow(clock, next));
    }
  }
}
