/**
 Trace translation (pkg/workload/conversion.go): per-minute counts and inter-arrival times in
 microseconds become absolute arrival times in seconds.
 */
module TraceConversion {
  datatype Invocation = Invocation(arrivalSec: real, runtimeMilliSec: int)

  /** The generator's output for one function. */
  datatype Spec = Spec(perMinuteCount: seq<int>, iat: seq<real>, runtimes: seq<int>)

  datatype Translation = Trace(minutes: nat, invocations: seq<Invocation>) | IndexPanic | CountMismatch

  /** A negative count makes the inner loop run zero times. */
  function Reps(count: int): nat { if count < 0 then 0 else count }

  /** Requests before the given minute. */
  function Before(counts: seq<int>, minute: nat): nat
    requires minute <= |counts|
  {
    if minute == 0 then 0 else Before(counts, minute - 1) + Reps(counts[minute - 1])
  }

  /** The minute that request `k` falls into. */
  function MinuteOf(counts: seq<int>, k: nat): (m: nat)
    requires k < Before(counts, |counts|)
    ensures m < |counts| && Before(counts, m) <= k < Before(counts, m + 1)
    decreases |counts|
  {
    var n := |counts| - 1;
    BeforePrefix(counts, n);
    if Before(counts, n) <= k then n
    else
      var m := MinuteOf(counts[..n], k);
      BeforePrefix(counts, m);
      BeforePrefix(counts, m + 1);
      m
  }

  lemma {:induction false} BeforePrefix(counts: seq<int>, m: nat)
    requires m < |counts|
    ensures Before(counts, m) == Before(counts[..|counts| - 1], m)
  {
    if m > 0 { BeforePrefix(counts, m - 1); }
  }

  lemma {:induction false} BeforeMonotone(counts: seq<int>, m: nat, n: nat)
    requires m <= n <= |counts|
    ensures Before(counts, m) <= Before(counts, n)
  {
    if m < n { BeforeMonotone(counts, m, n - 1); }
  }

  /** Sum of the inter-arrival times of requests `from..to`, in seconds. */
  function Elapsed(iat: seq<real>, from: nat, to: nat): real
    requires from <= to <= |iat|
  {
    if from == to then 0.0 else Elapsed(iat, from, to - 1) + iat[to - 1] / 1000000.0
  }

  /** The arrival of request `k`: its minute's start plus the gaps since, its own included. */
  function ArrivalOf(spec: Spec, k: nat): real
    requires k < Before(spec.perMinuteCount, |spec.perMinuteCount|) && k < |spec.iat|
  {
    var m := MinuteOf(spec.perMinuteCount, k);
    60.0 * m as real + Elapsed(spec.iat, Before(spec.perMinuteCount, m), k + 1)
  }

  function Total(spec: Spec): nat { Before(spec.perMinuteCount, |spec.perMinuteCount|) }

  predicate WellFormed(spec: Spec) { Total(spec) == |spec.iat| && |spec.iat| <= |spec.runtimes| }

  /** Only one minute contains `k`. */
  lemma MinuteUnique(counts: seq<int>, k: nat, m: nat)
    requires k < Before(counts, |counts|) && m < |counts| && Before(counts, m) <= k < Before(counts, m + 1)
    ensures MinuteOf(counts, k) == m
  {
    var n := MinuteOf(counts, k);
    BeforeMonotone(counts, if n < m then n + 1 else m, m);
    BeforeMonotone(counts, if m < n then m + 1 else n, n);
  }

  /** The first `n` requests have been translated. */
  ghost predicate Done(spec: Spec, invocations: seq<Invocation>, n: nat) {
    && |invocations| == n <= Total(spec) && n <= |spec.iat| && n <= |spec.runtimes|
    && forall k | 0 <= k < n :: invocations[k] == Invocation(ArrivalOf(spec, k), spec.runtimes[k])
  }

  lemma DoneOne(spec: Spec, invocations: seq<Invocation>, n: nat, minute: nat, next: Invocation)
    requires Done(spec, invocations, n) && n < |spec.iat| && n < |spec.runtimes| && minute < |spec.perMinuteCount|
    requires Before(spec.perMinuteCount, minute) <= n < Before(spec.perMinuteCount, minute + 1) <= Total(spec)
    requires next.runtimeMilliSec == spec.runtimes[n]
    requires next.arrivalSec == 60.0 * minute as real + Elapsed(spec.iat, Before(spec.perMinuteCount, minute), n + 1)
    ensures Done(spec, invocations + [next], n + 1)
  {
    MinuteUnique(spec.perMinuteCount, n, minute);
  }

  /**
   The nested loop. It succeeds exactly on well-formed specifications; indexing past the end of
   the inter-arrival times or the runtimes panics, and too few requests are a fatal mismatch.
   */
  method Translate(spec: Spec) returns (t: Translation)
    ensures t.Trace? <==> WellFormed(spec)
    ensures t.CountMismatch? <==> Total(spec) < |spec.iat| && Total(spec) <= |spec.runtimes|
    ensures t.Trace? ==> t.minutes == |spec.perMinuteCount| && |t.invocations| == |spec.iat|
    ensures t.Trace? ==> forall k | 0 <= k < |t.invocations| ::
              t.invocations[k] == Invocation(ArrivalOf(spec, k), spec.runtimes[k])
  {
    var counts := spec.perMinuteCount;
    var invocations: seq<Invocation> := [];
    var reqIndex := 0;
    for minute := 0 to |counts|
      invariant reqIndex == Before(counts, minute) && Done(spec, invocations, reqIndex)
    {
      var start := 60.0 * minute as real;
      var elapsed := 0.0;
      var i := 0;
      BeforeMonotone(counts, minute + 1, |counts|);
      while i < counts[minute]
        invariant 0 <= i <= Reps(counts[minute])
        invariant reqIndex == Before(counts, minute) + i && Done(spec, invocations, reqIndex)
        invariant elapsed == Elapsed(spec.iat, Before(counts, minute), reqIndex)
      {
        if reqIndex >= |spec.iat| || reqIndex >= |spec.runtimes| {
          return IndexPanic;
        }
        elapsed := elapsed + spec.iat[reqIndex] / 1000000.0;
        var next := Invocation(start + elapsed, spec.runtimes[reqIndex]);
        DoneOne(spec, invocations, reqIndex, minute, next);
        invocations := invocations + [next];
        reqIndex := reqIndex + 1;
        i := i + 1;
      }
    }
    if |invocations| != |spec.iat| {
      return CountMismatch;
    }
    return Trace(|counts|, invocations);
  }

  // ---- ordering --------------------------------------------------------------------------------

  /** Plain sum of the gaps of requests `from..to`, in microseconds. */
  function GapSum(iat: seq<real>, from: nat, to: nat): real
    requires from <= to <= |iat|
  {
    if from == to then 0.0 else GapSum(iat, from, to - 1) + iat[to - 1]
  }

  lemma {:induction false} ElapsedIsSum(iat: seq<real>, from: nat, to: nat)
    requires from <= to <= |iat|
    ensures 1000000.0 * Elapsed(iat, from, to) == GapSum(iat, from, to)
  {
    if from < to { ElapsedIsSum(iat, from, to - 1); }
  }

  /** The first request of a minute arrives its gap after the minute begins, every other that after its predecessor. */
  lemma ArrivalGaps(spec: Spec, k: nat)
    requires WellFormed(spec) && k < |spec.iat|
    ensures var m := MinuteOf(spec.perMinuteCount, k);
      if k == Before(spec.perMinuteCount, m) then 1000000.0 * (ArrivalOf(spec, k) - 60.0 * m as real) == spec.iat[k]
      else
        && k > 0 && MinuteOf(spec.perMinuteCount, k - 1) == m
        && 1000000.0 * (ArrivalOf(spec, k) - ArrivalOf(spec, k - 1)) == spec.iat[k]
  {
    var m := MinuteOf(spec.perMinuteCount, k);
    assert Elapsed(spec.iat, k, k) == 0.0;
    if k > Before(spec.perMinuteCount, m) { MinuteUnique(spec.perMinuteCount, k - 1, m); }
  }

  /** The counts added up from the front, negative ones as none. */
  function SumOf(counts: seq<int>): nat {
    if counts == [] then 0 else (if counts[0] > 0 then counts[0] else 0) + SumOf(counts[1..])
  }

  lemma {:induction false} BeforeIsSum(counts: seq<int>, m: nat)
    requires m <= |counts|
    ensures Before(counts, m) == SumOf(counts[..m])
  {
    if m > 0 {
      BeforeIsSum(counts, m - 1);
      SumAppend(counts[..m - 1], counts[m - 1]);
      assert counts[..m] == counts[..m - 1] + [counts[m - 1]];
    }
  }

  lemma {:induction false} SumAppend(counts: seq<int>, x: int)
    ensures SumOf(counts + [x]) == SumOf(counts) + if x > 0 then x else 0
  {
    if counts != [] {
      assert (counts + [x])[1..] == counts[1..] + [x];
      SumAppend(counts[1..], x);
    }
  }

  /** A trace is well formed if its counts add up to the number of gaps, and there are runtimes for all of them. */
  lemma WellFormedIff(spec: Spec)
    ensures WellFormed(spec) <==> SumOf(spec.perMinuteCount) == |spec.iat| <= |spec.runtimes|
  {
    BeforeIsSum(spec.perMinuteCount, |spec.perMinuteCount|);
    assert spec.perMinuteCount[..|spec.perMinuteCount|] == spec.perMinuteCount;
  }

  /** Gaps are not negative, and those of each minute add up to at most a minute. */
  ghost predicate Paced(spec: Spec)
    requires Total(spec) <= |spec.iat|
  {
    && (forall i | 0 <= i < |spec.iat| :: spec.iat[i] >= 0.0)
    && (forall m | 0 <= m < |spec.perMinuteCount| ::
          (BeforeMonotone(spec.perMinuteCount, m, m + 1);
           BeforeMonotone(spec.perMinuteCount, m + 1, |spec.perMinuteCount|);
           GapSum(spec.iat, Before(spec.perMinuteCount, m), Before(spec.perMinuteCount, m + 1)) <= 60000000.0))
  }

  lemma {:induction false} ElapsedMonotone(iat: seq<real>, from: nat, a: nat, b: nat)
    requires from <= a <= b <= |iat| && forall i | 0 <= i < |iat| :: iat[i] >= 0.0
    ensures 0.0 <= Elapsed(iat, from, a) <= Elapsed(iat, from, b)
  {
    if from < b {
      ElapsedMonotone(iat, from, if a < b then a else a - 1, b - 1);
    }
  }

  /** An arrival stays within its minute. */
  lemma ArrivalWithinMinute(spec: Spec, k: nat)
    requires WellFormed(spec) && Paced(spec) && k < |spec.iat|
    ensures var m := MinuteOf(spec.perMinuteCount, k) as real; 60.0 * m <= ArrivalOf(spec, k) <= 60.0 * (m + 1.0)
  {
    var counts := spec.perMinuteCount;
    var m := MinuteOf(counts, k);
    BeforeMonotone(counts, m + 1, |counts|);
    ElapsedMonotone(spec.iat, Before(counts, m), k + 1, Before(counts, m + 1));
    ElapsedIsSum(spec.iat, Before(counts, m), Before(counts, m + 1));
  }

  lemma MinuteMonotone(counts: seq<int>, j: nat, k: nat)
    requires j <= k < Before(counts, |counts|)
    ensures MinuteOf(counts, j) <= MinuteOf(counts, k)
  {
    var m, n := MinuteOf(counts, j), MinuteOf(counts, k);
    BeforeMonotone(counts, if n < m then n + 1 else m, m);
  }

  lemma SortedWithinMinute(spec: Spec, j: nat, k: nat)
    requires WellFormed(spec) && Paced(spec) && j <= k < |spec.iat|
    requires MinuteOf(spec.perMinuteCount, j) == MinuteOf(spec.perMinuteCount, k)
    ensures ArrivalOf(spec, j) <= ArrivalOf(spec, k)
  {
    ElapsedMonotone(spec.iat, Before(spec.perMinuteCount, MinuteOf(spec.perMinuteCount, j)), j + 1, k + 1);
  }

  /** The translated trace is sorted by arrival time. */
  lemma ArrivalsSorted(spec: Spec, j: nat, k: nat)
    requires WellFormed(spec) && Paced(spec) && j <= k < |spec.iat|
    ensures ArrivalOf(spec, j) <= ArrivalOf(spec, k)
  {
    MinuteMonotone(spec.perMinuteCount, j, k);
    if MinuteOf(spec.perMinuteCount, j) == MinuteOf(spec.perMinuteCount, k) {
      SortedWithinMinute(spec, j, k);
    } else {
      ArrivalWithinMinute(spec, j);
      ArrivalWithinMinute(spec, k);
    }
  }
}
