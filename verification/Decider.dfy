/**
 The KPA decider (pkg/autoscaler/decider/kpa.go). float64 is modelled by `real`,
 and a `time.Time` by an `int` of nanoseconds whose value 0 is the zero time.
 */
module Decider {
  import opened Common

  type Time = int

  datatype Config = Config(
    targetValue: real, maxScaleUpRate: real, maxScaleDownRate: real,
    stableWindow: int, panicThreshold: real)
  {
    predicate Valid() {
      targetValue > 0.0 && maxScaleUpRate > 0.0 && maxScaleDownRate > 0.0 && stableWindow >= 0
    }
  }

  /** The inputs of one Reconcile: the clock, the ready count and the three observed concurrencies. */
  datatype Observation = Observation(now: Time, ready: nat, stable: real, panic: real, instant: real)

  datatype PanicState = PanicState(panicTime: Time, maxPanicPods: int)

  const Calm := PanicState(0, 0)

  function Ceil(x: real): int { -((-x).Floor) }

  function AtLeastOne(ready: nat): nat { if ready == 0 then 1 else ready }

  /** "Use 1 if 0": when scaling from zero with requests around, both bounds are at least one. */
  function UpperBound(cfg: Config, o: Observation): int {
    var up := Ceil(cfg.maxScaleUpRate * AtLeastOne(o.ready) as real);
    if o.ready == 0 && o.instant > 0.0 then Max(up, 1) else up
  }

  function LowerBound(cfg: Config, o: Observation): int
    requires cfg.Valid()
  {
    var low := (AtLeastOne(o.ready) as real / cfg.maxScaleDownRate).Floor;
    if o.ready == 0 && o.instant > 0.0 then Max(low, 1) else low
  }

  function PodsFor(cfg: Config, value: real): int
    requires cfg.Valid()
  {
    Ceil(value / cfg.targetValue)
  }

  function Clamp(cfg: Config, o: Observation, pods: int): int
    requires cfg.Valid()
  {
    Min(Max(pods, LowerBound(cfg, o)), UpperBound(cfg, o))
  }

  function StableCount(cfg: Config, o: Observation): int
    requires cfg.Valid()
  {
    Clamp(cfg, o, PodsFor(cfg, o.stable))
  }

  function PanicCount(cfg: Config, o: Observation): int
    requires cfg.Valid()
  {
    Clamp(cfg, o, PodsFor(cfg, o.panic))
  }

  predicate OverThreshold(cfg: Config, o: Observation)
    requires cfg.Valid()
  {
    PodsFor(cfg, o.panic) as real / AtLeastOne(o.ready) as real >= cfg.panicThreshold
  }

  /** What one observation means for the panic state machine; `wanted` is the demand while panicking. */
  datatype Signal = Signal(now: Time, over: bool, stable: int, wanted: int)

  function SignalOf(cfg: Config, o: Observation): Signal
    requires cfg.Valid()
  {
    Signal(o.now, OverThreshold(cfg, o), StableCount(cfg, o), Max(StableCount(cfg, o), PanicCount(cfg, o)))
  }

  function NextPanicState(stableWindow: int, st: PanicState, sig: Signal): PanicState {
    var entered :=
      if sig.over then st.(panicTime := sig.now)
      else if st.panicTime != 0 && st.panicTime + stableWindow < sig.now then Calm
      else st;
    if entered.panicTime != 0 then entered.(maxPanicPods := Max(entered.maxPanicPods, sig.wanted)) else entered
  }

  /** The pod count before the scale-down delay, given the state after the reconcile. */
  function Decision(st: PanicState, sig: Signal): int {
    if st.panicTime != 0 then st.maxPanicPods else sig.stable
  }

  // ---- the scale-down delay --------------------------------------------------------------------

  /** A value recorded in the delay window. */
  datatype Record = Record(at: Time, value: int)

  /** The contract of the max window: the largest value whose bucket is still valid at `now`. */
  ghost predicate IsCurrent(live: (Time, Time) -> bool, records: seq<Record>, now: Time, v: int) {
    && (exists i | 0 <= i < |records| :: live(records[i].at, now) && records[i].value == v)
    && (forall i | 0 <= i < |records| && live(records[i].at, now) :: records[i].value <= v)
  }

  class KPADecider {
    const cfg: Config
    const delayed: bool
    const live: (Time, Time) -> bool
    var active: bool
    var panicTime: Time
    var maxPanicPods: int
    var delayWindow: seq<Record>
    var desiredScale: int

    ghost predicate Valid() reads this {
      cfg.Valid() && forall t :: live(t, t)
    }

    ghost function Panic(): PanicState reads this { PanicState(panicTime, maxPanicPods) }

    constructor (cfg: Config, delayed: bool, live: (Time, Time) -> bool)
      requires cfg.Valid() && forall t :: live(t, t)
      ensures Valid() && Panic() == Calm && !active && desiredScale == 0 && delayWindow == []
      ensures this.cfg == cfg && this.delayed == delayed && this.live == live
    {
      this.cfg, this.delayed, this.live := cfg, delayed, live;
      active, panicTime, maxPanicPods, delayWindow, desiredScale := false, 0, 0, [], 0;
    }

    /** Only the first call activates. */
    method Activate() returns (first: bool)
      modifies `active
      ensures first == !old(active) && active
    {
      first := !active;
      active := true;
    }

    method Reconcile(o: Observation) returns (desired: int)
      requires Valid()
      modifies `panicTime, `maxPanicPods, `delayWindow, `desiredScale
      ensures Valid()
      ensures Panic() == NextPanicState(cfg.stableWindow, old(Panic()), SignalOf(cfg, o))
      ensures desiredScale == desired
      ensures !delayed ==> desired == Decision(Panic(), SignalOf(cfg, o)) && delayWindow == old(delayWindow)
      ensures delayed ==> delayWindow == old(delayWindow) + [Record(o.now, Decision(Panic(), SignalOf(cfg, o)))]
                          && IsCurrent(live, delayWindow, o.now, desired)
    {
      var desiredStablePodCount, desiredPanicPodCount, isOverPanicThreshold := Count(o);
      if panicTime == 0 && isOverPanicThreshold {
        panicTime := o.now;
      } else if isOverPanicThreshold {
        panicTime := o.now;
      } else if panicTime != 0 && !isOverPanicThreshold && panicTime + cfg.stableWindow < o.now {
        panicTime := 0;
        maxPanicPods := 0;
      }

      desired := desiredStablePodCount;
      if panicTime != 0 {
        if desired < desiredPanicPodCount {
          desired := desiredPanicPodCount;
        }
        if desired > maxPanicPods {
          maxPanicPods := desired;
        }
        desired := maxPanicPods;
      }

      if delayed {
        delayWindow := delayWindow + [Record(o.now, desired)];
        desired := Current(o.now);
      }
      desiredScale := desired;
    }

    /** The clamped pod counts of the two windows, and whether the panic window is over its threshold. */
    method Count(o: Observation) returns (stablePods: int, panicPods: int, over: bool)
      requires cfg.Valid()
      ensures stablePods == StableCount(cfg, o) && panicPods == PanicCount(cfg, o) && over == OverThreshold(cfg, o)
    {
      var currentReady := AtLeastOne(o.ready);
      var up := Ceil(cfg.maxScaleUpRate * currentReady as real);
      var low := (currentReady as real / cfg.maxScaleDownRate).Floor;
      if o.ready == 0 && o.instant > 0.0 {
        up := Max(up, 1);
        low := Max(low, 1);
      }
      assert up == UpperBound(cfg, o) && low == LowerBound(cfg, o);
      var dspc := PodsFor(cfg, o.stable);
      var dppc := PodsFor(cfg, o.panic);
      stablePods := Min(Max(dspc, low), up);
      panicPods := Min(Max(dppc, low), up);
      over := dppc as real / currentReady as real >= cfg.panicThreshold;
    }

    /** Scans the window for its largest live value. */
    method Current(now: Time) returns (v: int)
      requires Valid() && |delayWindow| > 0 && delayWindow[|delayWindow| - 1].at == now
      ensures IsCurrent(live, delayWindow, now, v)
    {
      v := delayWindow[|delayWindow| - 1].value;
      for i := 0 to |delayWindow|
        invariant exists j | 0 <= j < |delayWindow| :: live(delayWindow[j].at, now) && delayWindow[j].value == v
        invariant forall j | 0 <= j < i && live(delayWindow[j].at, now) :: delayWindow[j].value <= v
      {
        if live(delayWindow[i].at, now) && v < delayWindow[i].value {
          v := delayWindow[i].value;
        }
      }
    }

    method Desired() returns (n: int)
      ensures n == desiredScale
    {
      n := desiredScale;
    }
  }
}
