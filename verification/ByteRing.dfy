/** The download speed a lane reports: ten slots, each holding the bytes of one bucket of
    a tenth of a second, reused in turn. Times are nanoseconds since the steady clock's
    epoch; byte counts do not wrap. */
module ByteRing {

  const MILLISECOND := 1_000_000
  const BUCKET := 100 * MILLISECOND
  const SECOND := 1_000_000_000
  const SLOTS := 10

  datatype Sample = Sample(bucket: nat, bytes: nat)

  datatype Arrival = Arrival(now: nat, bytes: nat)

  /** The number of the bucket a time falls into: milliseconds rounded down, then hundreds. */
  function BucketOf(now: nat): nat {
    now / MILLISECOND / 100
  }

  function StartOf(now: nat): nat {
    BucketOf(now) * BUCKET
  }

  function SlotOf(now: nat): nat {
    BucketOf(now) % SLOTS
  }

  predicate Live(start: nat, now: nat) {
    start <= now && now - start < SECOND
  }

  // ---------------------------------------------------------------- the ring

  function Record(samples: seq<Sample>, a: Arrival): seq<Sample>
    requires |samples| == SLOTS
  {
    var k, start := SlotOf(a.now), StartOf(a.now);
    samples[k := Sample(start, if samples[k].bucket == start then samples[k].bytes + a.bytes else a.bytes)]
  }

  function Ring(history: seq<Arrival>): (samples: seq<Sample>)
    ensures |samples| == SLOTS
  {
    if history == [] then seq(SLOTS, _ => Sample(0, 0))
    else Record(Ring(history[..|history| - 1]), history[|history| - 1])
  }

  function Share(s: Sample, now: nat): nat {
    if Live(s.bucket, now) then s.bytes else 0
  }

  function Report(samples: seq<Sample>, now: nat): nat {
    if samples == [] then 0
    else Report(samples[..|samples| - 1], now) + Share(samples[|samples| - 1], now)
  }

  // ---------------------------------------------------------------- what it should report

  function Worth(a: Arrival, now: nat): nat {
    if Live(StartOf(a.now), now) then a.bytes else 0
  }

  /** The bytes of the whole history whose bucket started less than a second ago. */
  function Truth(history: seq<Arrival>, now: nat): nat {
    if history == [] then 0
    else Truth(history[..|history| - 1], now) + Worth(history[|history| - 1], now)
  }

  /** The start of the latest bucket anything has arrived in. */
  function Latest(history: seq<Arrival>): nat {
    if history == [] then 0
    else
      var before, last := Latest(history[..|history| - 1]), StartOf(history[|history| - 1].now);
      if before < last then last else before
  }

  /** The report is right at every moment from the latest arrival on. */
  ghost predicate Exact(history: seq<Arrival>) {
    forall now: nat :: Latest(history) <= now ==> Report(Ring(history), now) == Truth(history, now)
  }

  // ---------------------------------------------------------------- slot by slot

  /** The live bytes of the arrivals that share slot k. */
  function SlotTruth(history: seq<Arrival>, k: nat, now: nat): nat {
    if history == [] then 0
    else
      var last := history[|history| - 1];
      SlotTruth(history[..|history| - 1], k, now) + (if SlotOf(last.now) == k then Worth(last, now) else 0)
  }

  function SumSlots(history: seq<Arrival>, n: nat, now: nat): nat {
    if n == 0 then 0 else SumSlots(history, n - 1, now) + SlotTruth(history, n - 1, now)
  }

  lemma {:induction false} SumSlotsStep(history: seq<Arrival>, n: nat, now: nat)
    requires history != [] && n <= SLOTS
    ensures var last := history[|history| - 1];
      SumSlots(history, n, now) ==
      SumSlots(history[..|history| - 1], n, now) + (if SlotOf(last.now) < n then Worth(last, now) else 0)
  {
    if n > 0 {
      SumSlotsStep(history, n - 1, now);
    }
  }

  lemma {:induction false} TruthBySlots(history: seq<Arrival>, now: nat)
    ensures Truth(history, now) == SumSlots(history, SLOTS, now)
  {
    if history == [] {
      EmptySlots(SLOTS, now);
    } else {
      TruthBySlots(history[..|history| - 1], now);
      SumSlotsStep(history, SLOTS, now);
    }
  }

  lemma EmptySlots(n: nat, now: nat)
    ensures SumSlots([], n, now) == 0
  {
  }

  /** Once the latest arrival has passed, live buckets only die. */
  lemma {:induction false} LiveShrinks(history: seq<Arrival>, k: nat, now: nat, later: nat)
    requires Latest(history) <= now <= later
    ensures SlotTruth(history, k, later) <= SlotTruth(history, k, now)
  {
    if history != [] {
      LiveShrinks(history[..|history| - 1], k, now, later);
    }
  }

  /** The bucket slot k was last written for. */
  function Held(history: seq<Arrival>, k: nat): (start: nat)
  {
    if history == [] then 0
    else
      var last := history[|history| - 1];
      if SlotOf(last.now) == k then StartOf(last.now) else Held(history[..|history| - 1], k)
  }

  lemma {:induction false} RingHolds(history: seq<Arrival>, k: nat)
    requires k < SLOTS
    ensures Ring(history)[k].bucket == Held(history, k)
  {
    if history != [] {
      RingHolds(history[..|history| - 1], k);
    }
  }

  /** Arrival n finds its slot on its own bucket, or with nothing in it that still counts. */
  predicate OnTime(history: seq<Arrival>, n: nat)
    requires n < |history|
  {
    var before, k := history[..n], SlotOf(history[n].now);
    Held(before, k) == StartOf(history[n].now) || SlotTruth(before, k, Latest(history[..n + 1])) == 0
  }

  predicate AllOnTime(history: seq<Arrival>) {
    forall n :: 0 <= n < |history| ==> OnTime(history, n)
  }

  lemma OnTimePrefix(history: seq<Arrival>, m: nat, n: nat)
    requires n < m <= |history|
    ensures OnTime(history[..m], n) == OnTime(history, n)
  {
    assert history[..m][..n] == history[..n];
    assert history[..m][..n + 1] == history[..n + 1];
  }

  lemma AllOnTimePrefix(history: seq<Arrival>, m: nat)
    requires m <= |history| && AllOnTime(history)
    ensures AllOnTime(history[..m])
  {
    forall n | 0 <= n < m
      ensures OnTime(history[..m], n)
    {
      OnTimePrefix(history, m, n);
    }
  }

  /** Slot reuse never drops a live bucket and never counts a dead one. */
  lemma {:induction false} SlotExact(history: seq<Arrival>, k: nat, now: nat)
    requires AllOnTime(history) && k < SLOTS && Latest(history) <= now
    ensures Share(Ring(history)[k], now) == SlotTruth(history, k, now)
  {
    if history != [] {
      var n := |history| - 1;
      var before := history[..n];
      AllOnTimePrefix(history, n);
      SlotExact(before, k, now);
      RingHolds(before, k);
      if SlotOf(history[n].now) == k && Held(before, k) != StartOf(history[n].now) {
        assert OnTime(history, n) && history[..n + 1] == history;
        LiveShrinks(before, k, Latest(history), now);
      }
    }
  }

  lemma {:induction false} ReportBySlots(history: seq<Arrival>, n: nat, now: nat)
    requires AllOnTime(history) && n <= SLOTS && Latest(history) <= now
    ensures Report(Ring(history)[..n], now) == SumSlots(history, n, now)
  {
    if n > 0 {
      ReportBySlots(history, n - 1, now);
      SlotExact(history, n - 1, now);
      assert Ring(history)[..n][..n - 1] == Ring(history)[..n - 1];
    }
  }

  lemma OnTimeIsExact(history: seq<Arrival>)
    requires AllOnTime(history)
    ensures Exact(history)
  {
    forall now: nat | Latest(history) <= now
      ensures Report(Ring(history), now) == Truth(history, now)
    {
      ReportBySlots(history, SLOTS, now);
      TruthBySlots(history, now);
      assert Ring(history)[..SLOTS] == Ring(history);
    }
  }

  // ---------------------------------------------------------------- the exact condition

  /** Writing one slot changes the report by what that slot's share changes. */
  lemma {:induction false} ReportUpdate(samples: seq<Sample>, k: nat, s: Sample, now: nat)
    requires k < |samples|
    ensures Report(samples[k := s], now) + Share(samples[k], now) == Report(samples, now) + Share(s, now)
  {
    var n := |samples| - 1;
    if k < n {
      ReportUpdate(samples[..n], k, s, now);
      assert samples[k := s][..n] == samples[..n][k := s];
    } else {
      assert samples[k := s][..n] == samples[..n];
    }
  }

  /** The first arrival that throws live bytes out makes the report wrong at once. */
  lemma LateIsWrong(history: seq<Arrival>, n: nat)
    requires n < |history| && AllOnTime(history[..n]) && !OnTime(history, n)
    ensures !Exact(history[..n + 1])
  {
    var before, h, a := history[..n], history[..n + 1], history[n];
    assert h[..n] == before;
    var k, now := SlotOf(a.now), Latest(h);
    OnTimeIsExact(before);
    SlotExact(before, k, now);
    RingHolds(before, k);
    ReportUpdate(Ring(before), k, Ring(h)[k], now);
    assert Report(Ring(h), now) < Truth(h, now);
  }

  /** The report stays right all along if and only if every arrival finds its slot on its
      own bucket or without live bytes. */
  lemma {:induction false} ExactCondition(history: seq<Arrival>)
    ensures (forall n :: 0 <= n <= |history| ==> Exact(history[..n])) <==> AllOnTime(history)
  {
    if AllOnTime(history) {
      forall n | 0 <= n <= |history|
        ensures Exact(history[..n])
      {
        AllOnTimePrefix(history, n);
        OnTimeIsExact(history[..n]);
      }
    } else {
      var m := FirstLate(history);
      LateIsWrong(history, m);
    }
  }

  lemma {:induction false} FirstLate(history: seq<Arrival>) returns (m: nat)
    requires !AllOnTime(history)
    ensures m < |history| && AllOnTime(history[..m]) && !OnTime(history, m)
  {
    var n := |history| - 1;
    if AllOnTime(history[..n]) {
      forall i | 0 <= i < n
        ensures OnTime(history, i)
      {
        OnTimePrefix(history, n, i);
      }
      m := n;
    } else {
      m := FirstLate(history[..n]);
      assert history[..n][..m] == history[..m];
      OnTimePrefix(history, n, m);
    }
  }

  // ---------------------------------------------------------------- clocks that do not run back

  predicate NonDecreasing(history: seq<Arrival>) {
    forall i, j :: 0 <= i < j < |history| ==> history[i].now <= history[j].now
  }

  /** Two buckets of one slot are at least a second apart. */
  lemma SameSlotApart(early: nat, late: nat)
    requires SlotOf(early) == SlotOf(late) && BucketOf(early) < BucketOf(late)
    ensures StartOf(late) - StartOf(early) >= SECOND
  {
  }

  lemma {:induction false} OlderBucketsAreDead(history: seq<Arrival>, k: nat, a: Arrival)
    requires forall i :: 0 <= i < |history| ==> history[i].now <= a.now
    requires SlotOf(a.now) == k && Held(history, k) != StartOf(a.now)
    requires NonDecreasing(history)
    ensures SlotTruth(history, k, StartOf(a.now)) == 0
  {
    if history != [] {
      var n := |history| - 1;
      var last := history[n];
      if SlotOf(last.now) == k {
        SlotBefore(history, k, last.now, a);
      } else {
        OlderBucketsAreDead(history[..n], k, a);
      }
    }
  }

  lemma {:induction false} SlotBefore(history: seq<Arrival>, k: nat, limit: nat, a: Arrival)
    requires forall i :: 0 <= i < |history| ==> history[i].now <= limit
    requires SlotOf(a.now) == k && SlotOf(limit) == k && BucketOf(limit) != BucketOf(a.now) && limit <= a.now
    ensures SlotTruth(history, k, StartOf(a.now)) == 0
  {
    if history != [] {
      var n := |history| - 1;
      SlotBefore(history[..n], k, limit, a);
      assert BucketOf(history[n].now) <= BucketOf(limit) < BucketOf(a.now);
      if SlotOf(history[n].now) == k {
        SameSlotApart(history[n].now, a.now);
      }
    }
  }

  lemma {:induction false} LatestIsLast(history: seq<Arrival>)
    requires NonDecreasing(history) && history != []
    ensures Latest(history) == StartOf(history[|history| - 1].now)
  {
    var n := |history| - 1;
    if n > 0 {
      LatestIsLast(history[..n]);
      assert BucketOf(history[n - 1].now) <= BucketOf(history[n].now);
    }
  }

  /** For arrival times that never run back the report is always right. */
  lemma OrderedIsExact(history: seq<Arrival>)
    requires NonDecreasing(history)
    ensures Exact(history)
  {
    forall n | 0 <= n < |history|
      ensures OnTime(history, n)
    {
      var k := SlotOf(history[n].now);
      LatestIsLast(history[..n + 1]);
      if Held(history[..n], k) != StartOf(history[n].now) {
        OlderBucketsAreDead(history[..n], k, history[n]);
      }
    }
    OnTimeIsExact(history);
  }

  /** A reading taken a second behind another thread's throws that one's bytes away. */
  lemma StaleReadingDropsBytes() returns (history: seq<Arrival>)
    ensures |history| == 2 && !Exact(history)
  {
    var recent, stale := Arrival(SECOND, 7), Arrival(0, 1);
    history := [recent, stale];
    assert history[..1] == [recent] && [recent][..0] == [];
    assert Ring([recent])[0] == Sample(SECOND, 7);
    assert !OnTime(history, 1) by {
      assert SlotTruth([recent], 0, SECOND) == 7;
      assert history[..2] == history && Latest([recent]) == SECOND;
    }
    assert AllOnTime([recent]) by {
      assert SlotTruth([], 0, Latest([recent])) == 0;
    }
    LateIsWrong(history, 1);
    assert history[..2] == history;
  }

  // ---------------------------------------------------------------- the lane's sample array

  class DownloadSamples {
    const samples: array<Sample>

    ghost predicate Valid() {
      samples.Length == SLOTS
    }

    constructor ()
      ensures Valid() && fresh(samples) && samples[..] == Ring([])
    {
      samples := new Sample[SLOTS](_ => Sample(0, 0));
    }

    /** Lane::onBytesReceived. */
    method Receive(bytes: nat, now: nat)
      requires Valid()
      modifies samples
      ensures samples[..] == Record(old(samples[..]), Arrival(now, bytes))
    {
      var bucket := now / MILLISECOND / 100;
      var timestamp := bucket * BUCKET;
      var k := bucket % SLOTS;
      if samples[k].bucket != timestamp {
        samples[k] := Sample(timestamp, 0);
      }
      samples[k] := Sample(samples[k].bucket, samples[k].bytes + bytes);
    }

    /** The sum Lane::fill reports. */
    method BytesPerSecond(now: nat) returns (total: nat)
      requires Valid()
      ensures total == Report(samples[..], now)
    {
      total := 0;
      for i := 0 to samples.Length
        invariant total == Report(samples[..i], now)
      {
        assert samples[..i + 1][..i] == samples[..i];
        if now >= samples[i].bucket && now - samples[i].bucket < SECOND {
          total := total + samples[i].bytes;
        }
      }
      assert samples[..samples.Length] == samples[..];
    }
  }
}
