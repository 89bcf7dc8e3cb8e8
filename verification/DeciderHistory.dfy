/**
 Whole runs of the decider: its few mutable fields are exactly what a specification over the
 complete history says they should be, more load never yields fewer pods, and a cold reconcile
 that observes a request never decides on zero.
 */
module DeciderHistory {
  import opened Common
  import opened Decider

  /** The decider's state after the first `n` reconciles. */
  function StateAfter(window: int, sigs: seq<Signal>, n: nat): PanicState
    requires n <= |sigs|
  {
    if n == 0 then Calm else NextPanicState(window, StateAfter(window, sigs, n - 1), sigs[n - 1])
  }

  /** The pod count that reconcile `n` decides on, before the scale-down delay. */
  function DecisionAt(window: int, sigs: seq<Signal>, n: nat): int
    requires n < |sigs|
  {
    Decision(StateAfter(window, sigs, n + 1), sigs[n])
  }

  /** Clock readings are nonzero and nondecreasing, and demands are counts. */
  ghost predicate Clocked(sigs: seq<Signal>) {
    && (forall i | 0 <= i < |sigs| :: sigs[i].now != 0 && 0 <= sigs[i].stable <= sigs[i].wanted)
    && (forall i, j | 0 <= i < j < |sigs| :: sigs[i].now <= sigs[j].now)
  }

  // ---- the history specification ---------------------------------------------------------------

  /** Some reconcile up to `n` was over the threshold no longer than a stable window ago. */
  ghost predicate Surging(window: int, sigs: seq<Signal>, n: nat)
    requires n < |sigs|
  {
    exists i | 0 <= i <= n :: sigs[i].over && sigs[n].now <= sigs[i].now + window
  }

  /** `[start..n]` is the panic episode that reconcile `n` belongs to. */
  ghost predicate Episode(window: int, sigs: seq<Signal>, start: nat, n: nat)
    requires n < |sigs|
  {
    && start <= n
    && (forall i | start <= i <= n :: Surging(window, sigs, i))
    && (start == 0 || !Surging(window, sigs, start - 1))
  }

  /** `peak` is the largest demand of the reconciles `start..n`. */
  ghost predicate Peak(sigs: seq<Signal>, start: nat, n: nat, peak: int)
    requires start <= n < |sigs|
  {
    && (forall i | start <= i <= n :: sigs[i].wanted <= peak)
    && (exists i | start <= i <= n :: sigs[i].wanted == peak)
  }

  /** `t` is the time of the latest reconcile over the threshold. */
  ghost predicate LastOver(sigs: seq<Signal>, n: nat, t: Time)
    requires n < |sigs|
  {
    && (exists i | 0 <= i <= n :: sigs[i].over && sigs[i].now == t)
    && (forall i | 0 <= i <= n && sigs[i].over :: sigs[i].now <= t)
  }

  lemma {:induction false} PanicInvariant(window: int, sigs: seq<Signal>, n: nat)
    requires window >= 0 && Clocked(sigs) && n < |sigs|
    ensures var st := StateAfter(window, sigs, n + 1);
      && (st.panicTime != 0 ==> LastOver(sigs, n, st.panicTime) && sigs[n].now <= st.panicTime + window)
      && (st.panicTime == 0 ==> !Surging(window, sigs, n) && st.maxPanicPods == 0)
  {
    if n > 0 {
      PanicInvariant(window, sigs, n - 1);
      var prev := StateAfter(window, sigs, n);
      if sigs[n].over {
        assert LastOver(sigs, n, sigs[n].now);
      } else if prev.panicTime != 0 && sigs[n].now <= prev.panicTime + window {
        assert LastOver(sigs, n, prev.panicTime);
      }
    }
  }

  /** Reconcile `n` is in panic mode if and only if it is surging. */
  lemma PanicIffSurging(window: int, sigs: seq<Signal>, n: nat)
    requires window >= 0 && Clocked(sigs) && n < |sigs|
    ensures StateAfter(window, sigs, n + 1).panicTime != 0 <==> Surging(window, sigs, n)
  {
    PanicInvariant(window, sigs, n);
  }

  /**
   Refinement of the history specification: outside an episode the maximum is zero and the stable
   count decides; inside one, the decision is the largest demand since the episode began.
   */
  lemma DecisionRefinesHistory(window: int, sigs: seq<Signal>, n: nat)
    requires window >= 0 && Clocked(sigs) && n < |sigs|
    ensures !Surging(window, sigs, n) ==>
              StateAfter(window, sigs, n + 1).maxPanicPods == 0 && DecisionAt(window, sigs, n) == sigs[n].stable
    ensures Surging(window, sigs, n) ==>
              exists start | 0 <= start <= n :: Episode(window, sigs, start, n)
                && Peak(sigs, start, n, DecisionAt(window, sigs, n))
  {
    PanicInvariant(window, sigs, n);
    PanicIffSurging(window, sigs, n);
    if Surging(window, sigs, n) {
      var start := PanicEpisode(window, sigs, n);
    }
  }

  lemma {:induction false} PanicEpisode(window: int, sigs: seq<Signal>, n: nat) returns (start: nat)
    requires window >= 0 && Clocked(sigs) && n < |sigs| && Surging(window, sigs, n)
    ensures Episode(window, sigs, start, n) && Peak(sigs, start, n, StateAfter(window, sigs, n + 1).maxPanicPods)
  {
    PeakGrows(window, sigs, n);
    if n > 0 && Surging(window, sigs, n - 1) {
      start := PanicEpisode(window, sigs, n - 1);
      ExtendPeak(window, sigs, start, n, StateAfter(window, sigs, n).maxPanicPods);
    } else {
      start := n;
      assert sigs[start].wanted == StateAfter(window, sigs, n + 1).maxPanicPods;
    }
  }

  /** While panicking, the remembered maximum takes in the demand of each reconcile, beginning with the first. */
  lemma PeakGrows(window: int, sigs: seq<Signal>, n: nat)
    requires window >= 0 && Clocked(sigs) && n < |sigs| && Surging(window, sigs, n)
    ensures StateAfter(window, sigs, n + 1).maxPanicPods ==
            if n > 0 && Surging(window, sigs, n - 1)
            then Max(StateAfter(window, sigs, n).maxPanicPods, sigs[n].wanted)
            else sigs[n].wanted
  {
    PanicIffSurging(window, sigs, n);
    if n > 0 { PanicInvariant(window, sigs, n - 1); }
    assert 0 <= sigs[n].stable <= sigs[n].wanted;
  }

  lemma ExtendPeak(window: int, sigs: seq<Signal>, start: nat, n: nat, peak: int)
    requires start < n < |sigs| && Episode(window, sigs, start, n - 1) && Surging(window, sigs, n)
    requires Peak(sigs, start, n - 1, peak)
    ensures Episode(window, sigs, start, n) && Peak(sigs, start, n, Max(peak, sigs[n].wanted))
  {
    var i :| start <= i <= n - 1 && sigs[i].wanted == peak;
  }

  // ---- from observations to signals ------------------------------------------------------------

  function Signals(cfg: Config, obs: seq<Observation>): seq<Signal>
    requires cfg.Valid()
  {
    seq(|obs|, i requires 0 <= i < |obs| => SignalOf(cfg, obs[i]))
  }

  ghost predicate ClockedObs(obs: seq<Observation>) {
    && (forall i | 0 <= i < |obs| :: obs[i].now != 0)
    && (forall i, j | 0 <= i < j < |obs| :: obs[i].now <= obs[j].now)
  }

  lemma FloorAtLeast(x: real, n: int)
    requires n as real <= x
    ensures n <= x.Floor
  {
  }

  lemma CeilMonotone(x: real, y: real)
    requires x <= y
    ensures Ceil(x) <= Ceil(y)
  {
    FloorAtLeast(-x, (-y).Floor);
  }

  lemma CeilIsLeast(x: real, n: int)
    ensures Ceil(x) <= n <==> x <= n as real
  {
    if x <= n as real { FloorAtLeast(-x, -n); }
  }

  lemma ScaleBounds(x: real, d: real, n: real)
    requires d > 0.0
    ensures x / d <= n <==> x <= n * d
    ensures n <= x / d <==> n * d <= x
  {
    var q := x / d;
    assert q * d == x;
    if q <= n { assert q * d <= n * d; } else { assert q * d > n * d; }
    if q >= n { assert q * d >= n * d; } else { assert q * d < n * d; }
  }

  /** `n` pods carry `value` at the target concurrency exactly when at least `PodsFor` of them are there. */
  lemma PodsForIsLeast(cfg: Config, value: real, n: int)
    requires cfg.Valid()
    ensures PodsFor(cfg, value) <= n <==> value <= n as real * cfg.targetValue
  {
    ScaleBounds(value, cfg.targetValue, n as real);
    CeilIsLeast(value / cfg.targetValue, n);
  }

  predicate ColdWithRequests(o: Observation) { o.ready == 0 && o.instant > 0.0 }

  /** What the rate limits allow, counting a missing pod as one. */
  lemma BoundsFollowRates(cfg: Config, o: Observation, n: int)
    requires cfg.Valid()
    ensures UpperBound(cfg, o) <= n <==>
            cfg.maxScaleUpRate * Max(o.ready, 1) as real <= n as real && (ColdWithRequests(o) ==> 1 <= n)
    ensures n <= LowerBound(cfg, o) <==>
            n as real * cfg.maxScaleDownRate <= Max(o.ready, 1) as real || (ColdWithRequests(o) && n <= 1)
  {
    CeilIsLeast(cfg.maxScaleUpRate * AtLeastOne(o.ready) as real, n);
    ScaleBounds(AtLeastOne(o.ready) as real, cfg.maxScaleDownRate, n as real);
    var low := AtLeastOne(o.ready) as real / cfg.maxScaleDownRate;
    if n as real <= low { FloorAtLeast(low, n); }
  }

  /**
   Either count is the least number of pods that carries its load within the bounds; if the bounds
   contradict each other, the upper one wins.
   */
  lemma CountsAreLeast(cfg: Config, o: Observation, n: int)
    requires cfg.Valid()
    ensures StableCount(cfg, o) <= n <==>
            UpperBound(cfg, o) <= n || (LowerBound(cfg, o) <= n && o.stable <= n as real * cfg.targetValue)
    ensures PanicCount(cfg, o) <= n <==>
            UpperBound(cfg, o) <= n || (LowerBound(cfg, o) <= n && o.panic <= n as real * cfg.targetValue)
  {
    PodsForIsLeast(cfg, o.stable, n);
    PodsForIsLeast(cfg, o.panic, n);
  }

  lemma CountNonNegative(cfg: Config, o: Observation, pods: int)
    requires cfg.Valid()
    ensures Clamp(cfg, o, pods) >= 0
  {
    var r := AtLeastOne(o.ready) as real;
    assert r / cfg.maxScaleDownRate >= 0.0;
    FloorAtLeast(r / cfg.maxScaleDownRate, 0);
    assert cfg.maxScaleUpRate * r > 0.0;
    CeilMonotone(0.0, cfg.maxScaleUpRate * r);
  }

  lemma SignalsClocked(cfg: Config, obs: seq<Observation>)
    requires cfg.Valid() && ClockedObs(obs)
    ensures Clocked(Signals(cfg, obs))
  {
    forall i | 0 <= i < |obs| ensures 0 <= SignalOf(cfg, obs[i]).stable {
      CountNonNegative(cfg, obs[i], PodsFor(cfg, obs[i].stable));
    }
  }

  // ---- the history in terms of load ------------------------------------------------------------

  /** `n` pods carry the load at the target concurrency. */
  predicate Carries(cfg: Config, n: int, load: real) { load <= n as real * cfg.targetValue }

  /** No count below the threshold multiple of the ready pods carries the panic load. */
  ghost predicate Overloaded(cfg: Config, o: Observation) {
    forall n: int :: n as real < cfg.panicThreshold * Max(o.ready, 1) as real ==> !Carries(cfg, n, o.panic)
  }

  lemma OverIffOverloaded(cfg: Config, o: Observation)
    requires cfg.Valid()
    ensures OverThreshold(cfg, o) <==> Overloaded(cfg, o)
  {
    var pods, ready := PodsFor(cfg, o.panic), Max(o.ready, 1) as real;
    ScaleBounds(pods as real, ready, cfg.panicThreshold);
    PodsForIsLeast(cfg, o.panic, pods);
    assert Carries(cfg, pods, o.panic);
    forall n: int | Carries(cfg, n, o.panic) ensures pods <= n { PodsForIsLeast(cfg, o.panic, n); }
  }

  /** Some reconcile up to `n` was overloaded no longer than a stable window ago. */
  ghost predicate LoadSurging(cfg: Config, obs: seq<Observation>, n: nat)
    requires n < |obs|
  {
    exists i | 0 <= i <= n :: Overloaded(cfg, obs[i]) && obs[n].now <= obs[i].now + cfg.stableWindow
  }

  lemma SurgingIffLoad(cfg: Config, obs: seq<Observation>, n: nat)
    requires cfg.Valid() && n < |obs|
    ensures Surging(cfg.stableWindow, Signals(cfg, obs), n) <==> LoadSurging(cfg, obs, n)
  {
    forall i | 0 <= i <= n ensures Signals(cfg, obs)[i].over <==> Overloaded(cfg, obs[i]) {
      OverIffOverloaded(cfg, obs[i]);
    }
  }

  /** A reconcile is in panic mode if and only if some reconcile up to it was overloaded within the stable window. */
  lemma PanicIffOverloaded(cfg: Config, obs: seq<Observation>, n: nat)
    requires cfg.Valid() && ClockedObs(obs) && n < |obs|
    ensures StateAfter(cfg.stableWindow, Signals(cfg, obs), n + 1).panicTime != 0 <==> LoadSurging(cfg, obs, n)
  {
    SignalsClocked(cfg, obs);
    PanicIffSurging(cfg.stableWindow, Signals(cfg, obs), n);
    SurgingIffLoad(cfg, obs, n);
  }

  /** All reconciles from `start` to `n` are in panic mode, and the one before is not. */
  ghost predicate LoadEpisode(cfg: Config, obs: seq<Observation>, start: nat, n: nat)
    requires n < |obs|
  {
    && start <= n
    && (forall i | start <= i <= n :: LoadSurging(cfg, obs, i))
    && (start == 0 || !LoadSurging(cfg, obs, start - 1))
  }

  /** `peak` is the largest stable or panic count of the reconciles `start..n`. */
  ghost predicate LoadPeak(cfg: Config, obs: seq<Observation>, start: nat, n: nat, peak: int)
    requires cfg.Valid() && start <= n < |obs|
  {
    && (forall i | start <= i <= n :: StableCount(cfg, obs[i]) <= peak && PanicCount(cfg, obs[i]) <= peak)
    && (exists i | start <= i <= n :: StableCount(cfg, obs[i]) == peak || PanicCount(cfg, obs[i]) == peak)
  }

  /**
   The decision in terms of the observations: outside an episode the stable count, inside one the largest
   stable or panic count since the episode began.
   */
  lemma DecisionRefinesLoad(cfg: Config, obs: seq<Observation>, n: nat)
    requires cfg.Valid() && ClockedObs(obs) && n < |obs|
    ensures var d := DecisionAt(cfg.stableWindow, Signals(cfg, obs), n);
      if LoadSurging(cfg, obs, n)
      then exists start: nat | start <= n :: LoadEpisode(cfg, obs, start, n) && LoadPeak(cfg, obs, start, n, d)
      else d == StableCount(cfg, obs[n])
  {
    var window, sigs := cfg.stableWindow, Signals(cfg, obs);
    SignalsClocked(cfg, obs);
    DecisionRefinesHistory(window, sigs, n);
    forall i: nat | i <= n ensures Surging(window, sigs, i) <==> LoadSurging(cfg, obs, i) {
      SurgingIffLoad(cfg, obs, i);
    }
    if LoadSurging(cfg, obs, n) {
      var d := DecisionAt(window, sigs, n);
      var start: nat :| start <= n && Episode(window, sigs, start, n) && Peak(sigs, start, n, d);
      PeakOfLoad(cfg, obs, start, n, d);
      assert LoadEpisode(cfg, obs, start, n);
    }
  }

  lemma PeakOfLoad(cfg: Config, obs: seq<Observation>, start: nat, n: nat, peak: int)
    requires cfg.Valid() && start <= n < |obs| && Peak(Signals(cfg, obs), start, n, peak)
    ensures LoadPeak(cfg, obs, start, n, peak)
  {
    var sigs := Signals(cfg, obs);
    assert forall i | start <= i <= n :: sigs[i].wanted == Max(StableCount(cfg, obs[i]), PanicCount(cfg, obs[i]));
    var i :| start <= i <= n && sigs[i].wanted == peak;
    assert StableCount(cfg, obs[i]) == peak || PanicCount(cfg, obs[i]) == peak;
  }

  // ---- more load never yields fewer pods -------------------------------------------------------

  /** The same clock and ready count, and nowhere less load. */
  predicate NoLessLoad(less: Observation, more: Observation) {
    && more.now == less.now && more.ready == less.ready
    && less.stable <= more.stable && less.panic <= more.panic && less.instant <= more.instant
  }

  ghost predicate Dominates(more: seq<Observation>, less: seq<Observation>) {
    |more| == |less| && forall i | 0 <= i < |less| :: NoLessLoad(less[i], more[i])
  }

  predicate SignalBelow(less: Signal, more: Signal) {
    less.now == more.now && (less.over ==> more.over) && less.stable <= more.stable && less.wanted <= more.wanted
  }

  lemma PodsMonotone(cfg: Config, x: real, y: real)
    requires cfg.Valid() && x <= y
    ensures PodsFor(cfg, x) <= PodsFor(cfg, y)
  {
    assert x / cfg.targetValue <= y / cfg.targetValue;
    CeilMonotone(x / cfg.targetValue, y / cfg.targetValue);
  }

  lemma DivideMonotone(a: int, b: int, r: real)
    requires a <= b && r > 0.0
    ensures a as real / r <= b as real / r
  {
  }

  /** Clamping is monotone in the demand and in both bounds. */
  lemma ClampMonotone(cfg: Config, less: Observation, more: Observation, a: int, b: int)
    requires cfg.Valid() && more.ready == less.ready && less.instant <= more.instant && a <= b
    ensures Clamp(cfg, less, a) <= Clamp(cfg, more, b)
  {
    assert LowerBound(cfg, less) <= LowerBound(cfg, more);
    assert UpperBound(cfg, less) <= UpperBound(cfg, more);
  }

  lemma OverMonotone(cfg: Config, less: Observation, more: Observation)
    requires cfg.Valid() && more.ready == less.ready && less.panic <= more.panic
    ensures OverThreshold(cfg, less) ==> OverThreshold(cfg, more)
  {
    PodsMonotone(cfg, less.panic, more.panic);
    DivideMonotone(PodsFor(cfg, less.panic), PodsFor(cfg, more.panic), AtLeastOne(less.ready) as real);
  }

  lemma SignalMonotone(cfg: Config, less: Observation, more: Observation)
    requires cfg.Valid() && NoLessLoad(less, more)
    ensures SignalBelow(SignalOf(cfg, less), SignalOf(cfg, more))
  {
    PodsMonotone(cfg, less.stable, more.stable);
    PodsMonotone(cfg, less.panic, more.panic);
    ClampMonotone(cfg, less, more, PodsFor(cfg, less.stable), PodsFor(cfg, more.stable));
    ClampMonotone(cfg, less, more, PodsFor(cfg, less.panic), PodsFor(cfg, more.panic));
    OverMonotone(cfg, less, more);
  }

  /** How two runs stay related although their panic episodes begin and end at different steps. */
  predicate Below(less: PanicState, more: PanicState, now: Time) {
    && (less.panicTime == 0 ==> less.maxPanicPods == 0)
    && (less.panicTime != 0 ==>
          more.panicTime != 0 && less.panicTime <= more.panicTime && less.maxPanicPods <= more.maxPanicPods)
    && (more.panicTime != 0 ==> more.panicTime <= now)
    && 0 <= more.maxPanicPods
  }

  lemma BelowStep(window: int, a: PanicState, b: PanicState, before: Time, less: Signal, more: Signal)
    requires Below(a, b, before) && before <= less.now && less.now != 0
    requires SignalBelow(less, more) && 0 <= less.stable <= less.wanted && more.stable <= more.wanted
    ensures Below(NextPanicState(window, a, less), NextPanicState(window, b, more), less.now)
    ensures Decision(NextPanicState(window, a, less), less) <= Decision(NextPanicState(window, b, more), more)
  {
  }

  lemma {:induction false} RunsRelated(window: int, less: seq<Signal>, more: seq<Signal>, n: nat)
    requires Clocked(less) && Clocked(more) && |less| == |more| && n < |less|
    requires forall i | 0 <= i < |less| :: SignalBelow(less[i], more[i])
    ensures Below(StateAfter(window, less, n + 1), StateAfter(window, more, n + 1), less[n].now)
    ensures DecisionAt(window, less, n) <= DecisionAt(window, more, n)
  {
    assert SignalBelow(less[n], more[n]);
    if n == 0 {
      BelowStep(window, Calm, Calm, less[0].now, less[0], more[0]);
    } else {
      RunsRelated(window, less, more, n - 1);
      BelowStep(window, StateAfter(window, less, n), StateAfter(window, more, n), less[n - 1].now, less[n], more[n]);
    }
  }

  /** More load never yields fewer pods, at any step of the run. */
  lemma MoreLoadNeverFewerPods(cfg: Config, less: seq<Observation>, more: seq<Observation>, n: nat)
    requires cfg.Valid() && ClockedObs(less) && Dominates(more, less) && n < |less|
    ensures DecisionAt(cfg.stableWindow, Signals(cfg, less), n) <= DecisionAt(cfg.stableWindow, Signals(cfg, more), n)
  {
    SignalsClocked(cfg, less);
    SignalsClocked(cfg, more);
    forall i | 0 <= i < |less| ensures SignalBelow(Signals(cfg, less)[i], Signals(cfg, more)[i]) {
      SignalMonotone(cfg, less[i], more[i]);
    }
    RunsRelated(cfg.stableWindow, Signals(cfg, less), Signals(cfg, more), n);
  }

  // ---- with the scale-down delay ---------------------------------------------------------------

  /** What the delay window holds after reconcile `n`. */
  function Recorded(window: int, sigs: seq<Signal>, n: nat): seq<Record>
    requires n < |sigs|
  {
    seq(n + 1, i requires 0 <= i <= n => Record(sigs[i].now, DecisionAt(window, sigs, i)))
  }

  /** One more reconcile leaves the earlier states as they were. */
  lemma {:induction false} StateOfPrefix(window: int, sigs: seq<Signal>, sig: Signal, n: nat)
    requires n <= |sigs|
    ensures StateAfter(window, sigs + [sig], n) == StateAfter(window, sigs, n)
  {
    if n > 0 { StateOfPrefix(window, sigs, sig, n - 1); }
  }

  lemma RecordedNext(window: int, sigs: seq<Signal>, sig: Signal)
    ensures var sigs' := sigs + [sig];
      Recorded(window, sigs', |sigs|) ==
      (if sigs == [] then [] else Recorded(window, sigs, |sigs| - 1))
      + [Record(sig.now, DecisionAt(window, sigs', |sigs|))]
  {
    var sigs' := sigs + [sig];
    forall i: nat | i < |sigs| ensures DecisionAt(window, sigs', i) == DecisionAt(window, sigs, i) {
      StateOfPrefix(window, sigs, sig, i + 1);
    }
  }

  /** The delay preserves the order: the published scale of the busier run is at least as large. */
  lemma MoreLoadNeverFewerPublished(cfg: Config, live: (Time, Time) -> bool,
                                    less: seq<Observation>, more: seq<Observation>, n: nat, a: int, b: int)
    requires cfg.Valid() && ClockedObs(less) && Dominates(more, less) && n < |less|
    requires IsCurrent(live, Recorded(cfg.stableWindow, Signals(cfg, less), n), less[n].now, a)
    requires IsCurrent(live, Recorded(cfg.stableWindow, Signals(cfg, more), n), more[n].now, b)
    ensures a <= b
  {
    var records := Recorded(cfg.stableWindow, Signals(cfg, less), n);
    var i :| 0 <= i < |records| && live(records[i].at, less[n].now) && records[i].value == a;
    MoreLoadNeverFewerPods(cfg, less, more, i);
    assert Recorded(cfg.stableWindow, Signals(cfg, more), n)[i].at == more[i].now;
  }

  // ---- scaling from zero -----------------------------------------------------------------------

  /** With no ready pod and a request around, a reconcile in any state decides on at least one pod. */
  lemma ScaleFromZero(cfg: Config, st: PanicState, o: Observation)
    requires cfg.Valid() && o.ready == 0 && o.instant > 0.0
    ensures Decision(NextPanicState(cfg.stableWindow, st, SignalOf(cfg, o)), SignalOf(cfg, o)) >= 1
  {
    assert LowerBound(cfg, o) >= 1 && UpperBound(cfg, o) >= 1;
    assert StableCount(cfg, o) >= 1;
  }

  /**
   Exactly when a reconcile decides on zero: it is not cold with a request around, the ready pods may be
   scaled down to none in one go, and there is no load in the stable window nor, while panicking, in the
   panic window or earlier in the episode.
   */
  lemma ZeroDecisionIff(cfg: Config, st: PanicState, o: Observation)
    requires cfg.Valid() && st.maxPanicPods >= 0
    ensures var next := NextPanicState(cfg.stableWindow, st, SignalOf(cfg, o));
      Decision(next, SignalOf(cfg, o)) == 0 <==>
        && !ColdWithRequests(o) && Max(o.ready, 1) as real < cfg.maxScaleDownRate && o.stable <= 0.0
        && (next.panicTime != 0 ==> o.panic <= 0.0 && st.maxPanicPods == 0)
    ensures Decision(NextPanicState(cfg.stableWindow, st, SignalOf(cfg, o)), SignalOf(cfg, o)) >= 0
  {
    ZeroCountsIff(cfg, o);
    CountNonNegative(cfg, o, PodsFor(cfg, o.stable));
    CountNonNegative(cfg, o, PodsFor(cfg, o.panic));
  }

  lemma ZeroCountsIff(cfg: Config, o: Observation)
    requires cfg.Valid()
    ensures var scalable := !ColdWithRequests(o) && Max(o.ready, 1) as real < cfg.maxScaleDownRate;
      && (StableCount(cfg, o) <= 0 <==> scalable && o.stable <= 0.0)
      && (PanicCount(cfg, o) <= 0 <==> scalable && o.panic <= 0.0)
  {
    assert cfg.maxScaleUpRate * AtLeastOne(o.ready) as real > 0.0;
    BoundsFollowRates(cfg, o, 0);
    BoundsFollowRates(cfg, o, 1);
    CountsAreLeast(cfg, o, 0);
  }

  /** The delay window cannot undo it. */
  lemma ScaleFromZeroPublished(live: (Time, Time) -> bool, window: seq<Record>, now: Time, decision: int, v: int)
    requires decision >= 1 && live(now, now)
    requires IsCurrent(live, window + [Record(now, decision)], now, v)
    ensures v >= 1
  {
    assert (window + [Record(now, decision)])[|window|] == Record(now, decision);
  }

  // ---- a clock that goes backwards -------------------------------------------------------------

  const Sample := Config(1.0, 10.0, 1.0, 10, 2.0)

  function OnePod(now: Time, panic: real): Observation { Observation(now, 1, 1.0, panic, 1.0) }

  lemma SampleSignal(now: Time, panic: int)
    requires 1 <= panic <= 10
    ensures SignalOf(Sample, OnePod(now, panic as real)) == Signal(now, panic >= 2, 1, panic)
  {
    var o := OnePod(now, panic as real);
    assert UpperBound(Sample, o) == 10 && LowerBound(Sample, o) == 1;
    assert PodsFor(Sample, o.panic) == panic && PodsFor(Sample, o.stable) == 1;
  }

  /** Monotonicity needs the clock: with a reading that goes back, less load can yield more pods. */
  lemma BackwardsClockBreaksMonotonicity()
    ensures var less := [OnePod(100, 5.0), OnePod(50, 1.0), OnePod(105, 1.0)];
      var more := [OnePod(100, 5.0), OnePod(50, 2.0), OnePod(105, 1.0)];
      Dominates(more, less) && DecisionAt(10, Signals(Sample, less), 2) > DecisionAt(10, Signals(Sample, more), 2)
  {
    SampleSignal(100, 5);
    SampleSignal(50, 1);
    SampleSignal(50, 2);
    SampleSignal(105, 1);
    var a, b := Signal(100, true, 1, 5), Signal(50, false, 1, 1);
    var d, e := Signal(50, true, 1, 2), Signal(105, false, 1, 1);
    assert Signals(Sample, [OnePod(100, 5.0), OnePod(50, 1.0), OnePod(105, 1.0)]) == [a, b, e];
    assert Signals(Sample, [OnePod(100, 5.0), OnePod(50, 2.0), OnePod(105, 1.0)]) == [a, d, e];
    BackwardsSignals(a, b, d, e);
  }

  lemma BackwardsSignals(a: Signal, b: Signal, d: Signal, e: Signal)
    requires a == Signal(100, true, 1, 5) && b == Signal(50, false, 1, 1) && d == Signal(50, true, 1, 2)
            && e == Signal(105, false, 1, 1)
    ensures DecisionAt(10, [a, b, e], 2) == 5 && DecisionAt(10, [a, d, e], 2) == 1
  {
    var less, more := [a, b, e], [a, d, e];
    assert StateAfter(10, less, 1) == PanicState(100, 5) && StateAfter(10, more, 1) == PanicState(100, 5);
    assert StateAfter(10, less, 2) == PanicState(100, 5) && StateAfter(10, more, 2) == PanicState(50, 5);
    assert StateAfter(10, less, 3) == PanicState(100, 5) && StateAfter(10, more, 3) == Calm;
  }
}
