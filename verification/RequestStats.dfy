/**
 The concurrency integrator (pkg/autoscaler/metric/stats.go). Instants are `real` seconds,
 with 0 for the zero `time.Time`; float64 is modelled by `real`.
 */
module RequestStats {

  datatype Stats = Stats(concurrency: int, integral: real, requestCount: nat, lastChange: real, secondsInUse: real)

  const Fresh := Stats(0, 0.0, 0, 0.0, 0.0)

  datatype Report = Report(averageConcurrency: real, requestCount: nat)

  /** `c` requests held for `d` seconds, as repeated addition. */
  function Area(c: int, d: real): real
    decreases if c < 0 then -c else c
  {
    if c == 0 then 0.0 else if c > 0 then Area(c - 1, d) + d else Area(c + 1, d) - d
  }

  lemma {:induction false} AreaIsProduct(c: int, d: real)
    ensures Area(c, d) == c as real * d
    decreases if c < 0 then -c else c
  {
    if c > 0 {
      AreaIsProduct(c - 1, d);
    } else if c < 0 {
      AreaIsProduct(c + 1, d);
    }
  }

  /** A clock reading earlier than the last change is ignored. */
  function Move(s: Stats, now: real): Stats {
    if s.lastChange == 0.0 then s.(lastChange := now)
    else if now > s.lastChange then
      s.(secondsInUse := s.secondsInUse + (now - s.lastChange),
         integral := s.integral + Area(s.concurrency, now - s.lastChange),
         lastChange := now)
    else s
  }

  function ReqIn(s: Stats, now: real): Stats {
    var m := Move(s, now);
    m.(concurrency := m.concurrency + 1, requestCount := m.requestCount + 1)
  }

  function ReqOut(s: Stats, now: real): Stats {
    var m := Move(s, now);
    m.(concurrency := m.concurrency - 1)
  }

  function ReportOf(s: Stats, now: real): Report {
    var m := Move(s, now);
    Report(if m.secondsInUse > 0.0 then m.integral / m.secondsInUse else 0.0, m.requestCount)
  }

  function AfterReport(s: Stats, now: real): Stats {
    Move(s, now).(integral := 0.0, requestCount := 0, secondsInUse := 0.0)
  }

  class Counter {
    var concurrency: int
    var concurrencyIntegral: real
    var requestCount: nat
    var lastChange: real
    var secondsInUse: real

    ghost function State(): Stats reads this {
      Stats(concurrency, concurrencyIntegral, requestCount, lastChange, secondsInUse)
    }

    constructor ()
      ensures State() == Fresh
    {
      concurrency, concurrencyIntegral, requestCount, lastChange, secondsInUse := 0, 0.0, 0, 0.0, 0.0;
    }

    method MoveTo(now: real)
      modifies this
      ensures State() == Move(old(State()), now)
    {
      if lastChange == 0.0 {
        lastChange := now;
        return;
      }
      var durationSecs := now - lastChange;
      if durationSecs > 0.0 {
        secondsInUse := secondsInUse + durationSecs;
        concurrencyIntegral := concurrencyIntegral + concurrency as real * durationSecs;
        AreaIsProduct(concurrency, durationSecs);
        lastChange := now;
      }
    }

    method In(now: real) returns (current: int)
      modifies this
      ensures State() == ReqIn(old(State()), now) && current == concurrency
    {
      MoveTo(now);
      concurrency := concurrency + 1;
      requestCount := requestCount + 1;
      current := concurrency;
    }

    method Out(now: real) returns (current: int)
      modifies this
      ensures State() == ReqOut(old(State()), now) && current == concurrency
    {
      MoveTo(now);
      concurrency := concurrency - 1;
      current := concurrency;
    }

    method Take(now: real) returns (report: Report)
      modifies this
      ensures State() == AfterReport(old(State()), now) && report == ReportOf(old(State()), now)
    {
      MoveTo(now);
      report := Report(0.0, requestCount);
      if secondsInUse > 0.0 {
        report := Report(concurrencyIntegral / secondsInUse, requestCount);
      }
      concurrencyIntegral, requestCount, secondsInUse := 0.0, 0, 0.0;
    }
  }
}

/**
 Whole runs of the integrator: the reports together are the exact time integral of the
 concurrency, which is also the total time that requests spent in the system.
 */
module StatsHistory {
  import opened RequestStats

  /** One call, with the clock reading it took. Readings may go backwards but are never the zero time. */
  datatype Op = In(at: real) | Out(at: real) | Collect(at: real)

  ghost predicate Clocked(ops: seq<Op>) { forall i | 0 <= i < |ops| :: ops[i].at != 0.0 }

  function Step(s: Stats, op: Op): Stats {
    match op
    case In(t) => ReqIn(s, t)
    case Out(t) => ReqOut(s, t)
    case Collect(t) => AfterReport(s, t)
  }

  /** The state after the first `n` calls. */
  function After(ops: seq<Op>, n: nat): Stats
    requires n <= |ops|
  {
    if n == 0 then Fresh else Step(After(ops, n - 1), ops[n - 1])
  }

  // ---- the specification -----------------------------------------------------------------------

  /** The latest clock reading so far: the time that counts when the clock jumps back. */
  function Now(ops: seq<Op>, n: nat): real
    requires 0 < n <= |ops|
  {
    if n == 1 then ops[0].at
    else if ops[n - 1].at > Now(ops, n - 1) then ops[n - 1].at else Now(ops, n - 1)
  }

  /** Requests that arrived minus requests that left. */
  function Concurrency(ops: seq<Op>, n: nat): int
    requires n <= |ops|
  {
    if n == 0 then 0
    else Concurrency(ops, n - 1) + match ops[n - 1] case In(_) => 1 case Out(_) => -1 case Collect(_) => 0
  }

  function Arrivals(ops: seq<Op>, n: nat): nat
    requires n <= |ops|
  {
    if n == 0 then 0 else Arrivals(ops, n - 1) + if ops[n - 1].In? then 1 else 0
  }

  /** The step-function integral of the concurrency over the latest time, up to call `n`. */
  function Integral(ops: seq<Op>, n: nat): real
    requires 0 < n <= |ops|
  {
    if n == 1 then 0.0
    else Integral(ops, n - 1) + Area(Concurrency(ops, n - 1), Now(ops, n) - Now(ops, n - 1))
  }

  /** Index of the first call after the last collected report, so that `n` belongs to window `[start, n)`. */
  function WindowStart(ops: seq<Op>, n: nat): (start: nat)
    requires n <= |ops|
    ensures start <= n
  {
    if n == 0 then 0 else if ops[n - 1].Collect? then n else WindowStart(ops, n - 1)
  }

  /** Length of the window that a report at call `n - 1` covers. */
  function WindowSeconds(ops: seq<Op>, n: nat): real
    requires 0 < n <= |ops|
  {
    var start := WindowStart(ops, n - 1);
    Now(ops, n) - Now(ops, if start == 0 then 1 else start)
  }

  function Weight(r: Report, seconds: real): real { r.averageConcurrency * seconds }

  /** Average times seconds, summed over the reports among the first `n` calls. */
  function Reported(ops: seq<Op>, n: nat): real
    requires n <= |ops|
  {
    if n == 0 then 0.0
    else Reported(ops, n - 1) +
         if ops[n - 1].Collect?
         then Weight(ReportOf(After(ops, n - 1), ops[n - 1].at), WindowSeconds(ops, n))
         else 0.0
  }

  function ReportedCount(ops: seq<Op>, n: nat): nat
    requires n <= |ops|
  {
    if n == 0 then 0
    else ReportedCount(ops, n - 1) +
         if ops[n - 1].Collect? then ReportOf(After(ops, n - 1), ops[n - 1].at).requestCount else 0
  }

  // ---- the integrator refines it ---------------------------------------------------------------

  lemma {:induction false} NowNonZero(ops: seq<Op>, n: nat)
    requires Clocked(ops) && 0 < n <= |ops|
    ensures Now(ops, n) != 0.0
  {
    if n > 1 { NowNonZero(ops, n - 1); }
  }

  /** Seconds elapsed in the window that is open after `n` calls. */
  function OpenSeconds(ops: seq<Op>, n: nat): real
    requires 0 < n <= |ops|
  {
    var start := WindowStart(ops, n);
    Now(ops, n) - Now(ops, if start == 0 then 1 else start)
  }

  /** What the fields hold after `n` calls. */
  lemma {:induction false} Fields(ops: seq<Op>, n: nat)
    requires Clocked(ops) && 0 < n <= |ops|
    ensures After(ops, n).concurrency == Concurrency(ops, n)
    ensures After(ops, n).lastChange == Now(ops, n)
    ensures After(ops, n).secondsInUse == OpenSeconds(ops, n) && OpenSeconds(ops, n) >= 0.0
    ensures After(ops, n).secondsInUse == 0.0 ==> After(ops, n).integral == 0.0
  {
    if n > 1 {
      Fields(ops, n - 1);
      NowNonZero(ops, n - 1);
      assert After(ops, n) == Step(After(ops, n - 1), ops[n - 1]);
    }
  }

  /** An empty window has accumulated nothing. */
  predicate Sound(s: Stats) { s.secondsInUse >= 0.0 && (s.secondsInUse == 0.0 ==> s.integral == 0.0) }

  /** A report gives away exactly what the window accumulated. */
  lemma ReportIsExact(s: Stats, now: real)
    requires Sound(Move(s, now))
    ensures Weight(ReportOf(s, now), Move(s, now).secondsInUse) == Move(s, now).integral
  {
  }

  lemma MoveAccrues(s: Stats, now: real)
    requires s.lastChange != 0.0 && Sound(s)
    ensures var m := Move(s, now);
      && m.lastChange == (if now > s.lastChange then now else s.lastChange)
      && m.integral == s.integral + Area(s.concurrency, m.lastChange - s.lastChange)
      && m.secondsInUse == s.secondsInUse + (m.lastChange - s.lastChange)
      && Sound(m)
  {
    AreaIsProduct(s.concurrency, 0.0);
  }

  /** Seconds of the window that a report at call `n - 1` closes. */
  lemma ClosedSeconds(ops: seq<Op>, n: nat)
    requires Clocked(ops) && 1 < n <= |ops|
    ensures Move(After(ops, n - 1), ops[n - 1].at).secondsInUse == WindowSeconds(ops, n)
    ensures Move(After(ops, n - 1), ops[n - 1].at).integral ==
            After(ops, n - 1).integral + Area(Concurrency(ops, n - 1), Now(ops, n) - Now(ops, n - 1))
    ensures Sound(Move(After(ops, n - 1), ops[n - 1].at))
  {
    Fields(ops, n - 1);
    NowNonZero(ops, n - 1);
    MoveAccrues(After(ops, n - 1), ops[n - 1].at);
  }

  lemma ReportedGain(ops: seq<Op>, n: nat)
    requires Clocked(ops) && 1 < n <= |ops| && ops[n - 1].Collect?
    ensures Reported(ops, n) == Reported(ops, n - 1) + Move(After(ops, n - 1), ops[n - 1].at).integral
  {
    var s, at := After(ops, n - 1), ops[n - 1].at;
    var weight := Weight(ReportOf(s, at), WindowSeconds(ops, n));
    assert weight == Move(s, at).integral by {
      ClosedSeconds(ops, n);
      ReportIsExact(s, at);
    }
    assert Reported(ops, n) == Reported(ops, n - 1) + weight;
  }

  /** One call adds `concurrency * elapsed` to what has been reported plus what is still held. */
  lemma Accrues(ops: seq<Op>, n: nat)
    requires Clocked(ops) && 1 < n <= |ops|
    ensures Reported(ops, n) + After(ops, n).integral ==
            Reported(ops, n - 1) + After(ops, n - 1).integral +
              Area(Concurrency(ops, n - 1), Now(ops, n) - Now(ops, n - 1))
  {
    ClosedSeconds(ops, n);
    if ops[n - 1].Collect? {
      ReportedGain(ops, n);
    }
  }

  /**
   For any calls and any clock readings, the reports (average times seconds) plus the integral still
   held are the integral of the concurrency, and the reported plus the held count are the arrivals.
   */
  lemma {:induction false} ReportsAreTheIntegral(ops: seq<Op>, n: nat)
    requires Clocked(ops) && 0 < n <= |ops|
    ensures Reported(ops, n) + After(ops, n).integral == Integral(ops, n)
    ensures ReportedCount(ops, n) + After(ops, n).requestCount == Arrivals(ops, n)
  {
    if n > 1 {
      ReportsAreTheIntegral(ops, n - 1);
      Accrues(ops, n);
    }
  }

  // ---- the integral is time spent in the system ------------------------------------------------

  /** For every arrival the time since it, minus for every departure the time since it. */
  function TimeInSystem(ops: seq<Op>, n: nat, until: real): real
    requires n <= |ops|
  {
    if n == 0 then 0.0
    else TimeInSystem(ops, n - 1, until) +
         match ops[n - 1]
         case In(_) => until - Now(ops, n)
         case Out(_) => -(until - Now(ops, n))
         case Collect(_) => 0.0
  }

  lemma {:induction false} LaterUntil(ops: seq<Op>, n: nat, t: real, u: real)
    requires n <= |ops|
    ensures TimeInSystem(ops, n, u) == TimeInSystem(ops, n, t) + Area(Concurrency(ops, n), u - t)
  {
    if n > 0 {
      LaterUntil(ops, n - 1, t, u);
      var c := Concurrency(ops, n - 1);
      assert Area(c + 1, u - t) == Area(c, u - t) + (u - t) && Area(c, u - t) == Area(c - 1, u - t) + (u - t);
    }
  }

  /** All reports together account for exactly the time that requests spent in the system. */
  lemma {:induction false} IntegralIsTimeInSystem(ops: seq<Op>, n: nat)
    requires 0 < n <= |ops|
    ensures Integral(ops, n) == TimeInSystem(ops, n, Now(ops, n))
  {
    if n > 1 {
      IntegralIsTimeInSystem(ops, n - 1);
      LaterUntil(ops, n - 1, Now(ops, n - 1), Now(ops, n));
    }
  }

  // ---- averages stay within the concurrency that was held --------------------------------------

  /** Every concurrency that was held for some time between calls `start` and `n` lies between `lo` and `hi`. */
  ghost predicate HeldWithin(ops: seq<Op>, start: nat, n: nat, lo: int, hi: int)
    requires n <= |ops|
  {
    forall i | start <= i < n && 0 < i && Now(ops, i) < Now(ops, i + 1) :: lo <= Concurrency(ops, i) <= hi
  }

  lemma {:induction false} AreaMonotone(a: int, b: int, d: real)
    requires a <= b && d >= 0.0
    ensures Area(a, d) <= Area(b, d)
    decreases b - a
  {
    if a < b {
      AreaMonotone(a + 1, b, d);
      assert Area(a + 1, d) == Area(a, d) + d;
    }
  }

  lemma {:induction false} AreaAdds(c: int, x: real, y: real)
    ensures Area(c, x + y) == Area(c, x) + Area(c, y)
    decreases if c < 0 then -c else c
  {
    if c > 0 { AreaAdds(c - 1, x, y); } else if c < 0 { AreaAdds(c + 1, x, y); }
  }

  lemma BoundedMove(s: Stats, now: real, lo: int, hi: int)
    requires s.lastChange != 0.0 && Sound(s) && (now > s.lastChange ==> lo <= s.concurrency <= hi)
    requires Area(lo, s.secondsInUse) <= s.integral <= Area(hi, s.secondsInUse)
    ensures var m := Move(s, now); Area(lo, m.secondsInUse) <= m.integral <= Area(hi, m.secondsInUse)
  {
    if now > s.lastChange {
      var d := now - s.lastChange;
      AreaMonotone(lo, s.concurrency, d);
      AreaMonotone(s.concurrency, hi, d);
      AreaAdds(lo, s.secondsInUse, d);
      AreaAdds(hi, s.secondsInUse, d);
    }
  }

  /** The next call's move keeps the window's integral within the bounds. */
  lemma MoveWithin(ops: seq<Op>, n: nat, start: nat, lo: int, hi: int)
    requires Clocked(ops) && 0 < n < |ops| && start <= n && HeldWithin(ops, start, n + 1, lo, hi)
    requires var s := After(ops, n); Area(lo, s.secondsInUse) <= s.integral <= Area(hi, s.secondsInUse)
    ensures var m := Move(After(ops, n), ops[n].at); Area(lo, m.secondsInUse) <= m.integral <= Area(hi, m.secondsInUse)
  {
    Fields(ops, n);
    NowNonZero(ops, n);
    assert ops[n].at > Now(ops, n) ==> Now(ops, n) < Now(ops, n + 1);
    BoundedMove(After(ops, n), ops[n].at, lo, hi);
  }

  lemma NewWindow(ops: seq<Op>, n: nat)
    requires 0 < n <= |ops| && (n == 1 || ops[n - 1].Collect?)
    ensures After(ops, n).secondsInUse == 0.0 && After(ops, n).integral == 0.0
  {
    assert After(ops, n) == Step(After(ops, n - 1), ops[n - 1]);
    assert n == 1 ==> After(ops, n - 1) == Fresh;
  }

  lemma SameWindow(ops: seq<Op>, n: nat)
    requires 0 < n <= |ops| && !ops[n - 1].Collect?
    ensures var s, m := After(ops, n), Move(After(ops, n - 1), ops[n - 1].at);
      s.secondsInUse == m.secondsInUse && s.integral == m.integral
  {
  }

  lemma AreaOfNothing(c: int)
    ensures Area(c, 0.0) == 0.0
  {
    AreaIsProduct(c, 0.0);
  }

  lemma {:induction false} WindowBounded(ops: seq<Op>, n: nat, lo: int, hi: int)
    requires Clocked(ops) && 0 < n <= |ops| && HeldWithin(ops, WindowStart(ops, n), n, lo, hi)
    ensures var s := After(ops, n); Area(lo, s.secondsInUse) <= s.integral <= Area(hi, s.secondsInUse)
  {
    if n == 1 || ops[n - 1].Collect? {
      NewWindow(ops, n);
      AreaOfNothing(lo);
      AreaOfNothing(hi);
    } else {
      WindowBounded(ops, n - 1, lo, hi);
      MoveWithin(ops, n - 1, WindowStart(ops, n), lo, hi);
      SameWindow(ops, n);
    }
  }

  lemma AverageBounds(integral: real, seconds: real, lo: int, hi: int)
    requires seconds > 0.0 && Area(lo, seconds) <= integral <= Area(hi, seconds)
    ensures lo as real <= integral / seconds <= hi as real
  {
    AreaIsProduct(lo, seconds);
    AreaIsProduct(hi, seconds);
    DivideBounds(integral, seconds, lo as real, hi as real);
  }

  lemma DivideBounds(x: real, d: real, lo: real, hi: real)
    requires d > 0.0 && lo * d <= x <= hi * d
    ensures lo <= x / d <= hi
  {
    var q := x / d;
    assert q * d == x;
  }

  /**
   A report over a window of positive length is an average: it lies between any bounds on the
   concurrency held for some time in that window, in whatever order the clock readings come.
   */
  lemma AverageWithinHeld(ops: seq<Op>, n: nat, lo: int, hi: int)
    requires Clocked(ops) && 0 < n < |ops| && ops[n].Collect? && HeldWithin(ops, WindowStart(ops, n), n + 1, lo, hi)
    requires WindowSeconds(ops, n + 1) > 0.0
    ensures lo as real <= ReportOf(After(ops, n), ops[n].at).averageConcurrency <= hi as real
  {
    WindowBounded(ops, n, lo, hi);
    MoveWithin(ops, n, WindowStart(ops, n), lo, hi);
    ClosedSeconds(ops, n + 1);
    var m := Move(After(ops, n), ops[n].at);
    AverageBounds(m.integral, m.secondsInUse, lo, hi);
  }

  /** A report over an empty window has an average of zero. */
  lemma EmptyReportIsZero(ops: seq<Op>, n: nat)
    requires Clocked(ops) && n < |ops| && ops[n].Collect? && WindowSeconds(ops, n + 1) == 0.0
    ensures ReportOf(After(ops, n), ops[n].at).averageConcurrency == 0.0
  {
    if n > 0 { ClosedSeconds(ops, n + 1); }
  }
}
