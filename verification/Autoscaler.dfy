/**
 How request arrivals drive the decider (pkg/autoscaler/interface.go): counting requests,
 starting the ticker, queueing the key, and processing queued keys.

 The relay goroutine of a target, its ticker and the worker that has taken its key run concurrently:
 `ReqIn` counts a request and looks at the published scale in separate steps, and a reconcile
 observes the concurrency and publishes its decision in separate steps.
 */
module Autoscaler {
  import opened Common
  import opened Decider
  import opened DeciderHistory

  /** Where the relay is inside `ReqIn`. */
  datatype Call = NoCall | Counted | Activated

  /** Where the worker is inside `scale`: finding out the ready pods, or deciding on what it observed. */
  datatype Work = Resting | Listing | Deciding(o: Observation)

  /** One target: requests in the system, ticker started, published scale, queued, goroutines, and decider state. */
  datatype KeyState = KeyState(
    outstanding: int, active: bool, desired: int, queued: bool,
    call: Call, work: Work, panic: PanicState, window: seq<Record>)

  const NewKey := KeyState(0, false, 0, false, NoCall, Resting, Calm, [])

  /** Fixed per autoscaler; `live` is the delay window's notion of a bucket that still counts. */
  datatype Setup = Setup(async: bool, cfg: Config, delayed: bool, live: (Time, Time) -> bool)

  ghost predicate ValidSetup(u: Setup) { u.cfg.Valid() && forall t :: u.live(t, t) }

  function CountedIn(k: KeyState): KeyState { k.(outstanding := k.outstanding + 1, call := Counted) }

  function MadeActive(k: KeyState): KeyState { k.(active := true, call := Activated) }

  function ZeroChecked(async: bool, k: KeyState): KeyState {
    k.(queued := k.queued || (!async && k.desired == 0), call := NoCall)
  }

  /** A `ReqIn` call that nothing interrupts. */
  function OnReqIn(async: bool, k: KeyState): KeyState { ZeroChecked(async, MadeActive(CountedIn(k))) }

  function OnReqOut(k: KeyState): KeyState { k.(outstanding := k.outstanding - 1) }

  /** What a reconcile observes: the clock, the ready pods, two window averages, and the requests outstanding now. */
  function Observed(k: KeyState, now: Time, ready: nat, stable: real, panic: real): Observation {
    Observation(now, ready, stable, panic, k.outstanding as real)
  }

  /** The pod count before the scale-down delay. */
  function DecidedOn(u: Setup, k: KeyState, o: Observation): int
    requires u.cfg.Valid()
  {
    Decision(NextPanicState(u.cfg.stableWindow, k.panic, SignalOf(u.cfg, o)), SignalOf(u.cfg, o))
  }

  /** `v` is what a reconcile of `k` that observed `o` may publish. */
  ghost predicate Publishes(u: Setup, k: KeyState, o: Observation, v: int)
    requires u.cfg.Valid()
  {
    if u.delayed then IsCurrent(u.live, k.window + [Record(o.now, DecidedOn(u, k, o))], o.now, v)
    else v == DecidedOn(u, k, o)
  }

  function Published(u: Setup, k: KeyState, o: Observation, v: int): KeyState
    requires u.cfg.Valid()
  {
    k.(desired := v, work := Resting, panic := NextPanicState(u.cfg.stableWindow, k.panic, SignalOf(u.cfg, o)),
       window := if u.delayed then k.window + [Record(o.now, DecidedOn(u, k, o))] else k.window)
  }

  // ---- runs of one target ----------------------------------------------------------------------

  datatype Label =
    | CountIn | Activate | CheckZero
    | Leave
    | Tick
    | Begin | Observe(now: Time, ready: nat, stable: real, panicValue: real) | Publish(published: int) | Fail

  ghost predicate Enabled(u: Setup, k: KeyState, l: Label)
    requires u.cfg.Valid()
  {
    match l
    case CountIn => k.call.NoCall?
    case Activate => k.call.Counted?
    case CheckZero => k.call.Activated?
    case Leave => k.call.NoCall? && k.outstanding > 0
    case Tick => k.active
    case Begin => k.queued && k.work.Resting?
    case Observe(_, _, _, _) => k.work.Listing?
    case Publish(v) => k.work.Deciding? && Publishes(u, k, k.work.o, v)
    case Fail => k.work.Listing?
  }

  /** A failed scale attempt is not requeued; a key added while a worker has it is queued again. */
  function Apply(u: Setup, k: KeyState, l: Label): KeyState
    requires u.cfg.Valid() && (l.Publish? ==> k.work.Deciding?)
  {
    match l
    case CountIn => CountedIn(k)
    case Activate => MadeActive(k)
    case CheckZero => ZeroChecked(u.async, k)
    case Leave => OnReqOut(k)
    case Tick => k.(queued := true)
    case Begin => k.(queued := false, work := Listing)
    case Observe(now, ready, stable, panicValue) => k.(work := Deciding(Observed(k, now, ready, stable, panicValue)))
    case Publish(v) => Published(u, k, k.work.o, v)
    case Fail => k.(work := Resting)
  }

  ghost predicate Next(u: Setup, k: KeyState, l: Label, k': KeyState)
    requires u.cfg.Valid()
  {
    Enabled(u, k, l) && k' == Apply(u, k, l)
  }

  ghost predicate StepAt(u: Setup, states: seq<KeyState>, labels: seq<Label>, i: nat)
    requires u.cfg.Valid() && |states| == |labels| + 1 && i < |labels|
  {
    Next(u, states[i], labels[i], states[i + 1])
  }

  ghost predicate IsRun(u: Setup, states: seq<KeyState>, labels: seq<Label>) {
    && ValidSetup(u) && |states| == |labels| + 1 && states[0] == NewKey
    && forall i: nat | i < |labels| :: StepAt(u, states, labels, i)
  }

  /** A reconcile that observed a request and no ready pod publishes at least one pod. */
  lemma ColdReconcilePublishes(u: Setup, k: KeyState, v: int)
    requires ValidSetup(u) && Enabled(u, k, Publish(v)) && k.work.o.ready == 0 && k.work.o.instant > 0.0
    ensures v >= 1 && Apply(u, k, Publish(v)).desired == v
  {
    ScaleFromZero(u.cfg, k.panic, k.work.o);
    if u.delayed {
      ScaleFromZeroPublished(u.live, k.window, k.work.o.now, DecidedOn(u, k, k.work.o), v);
    }
  }

  /** No value in the delay window that still counts is positive. */
  ghost predicate NothingDelayed(u: Setup, k: KeyState, now: Time) {
    u.delayed ==> forall i | 0 <= i < |k.window| && u.live(k.window[i].at, now) :: k.window[i].value <= 0
  }

  /** Exactly which observations make a reconcile publish zero. */
  lemma PublishesZeroIff(u: Setup, k: KeyState, v: int)
    requires ValidSetup(u) && Enabled(u, k, Publish(v)) && k.panic.maxPanicPods >= 0
    ensures var o := k.work.o;
      v == 0 <==>
        && !ColdWithRequests(o) && Max(o.ready, 1) as real < u.cfg.maxScaleDownRate && o.stable <= 0.0
        && (Apply(u, k, Publish(v)).panic.panicTime != 0 ==> o.panic <= 0.0 && k.panic.maxPanicPods == 0)
        && NothingDelayed(u, k, o.now)
  {
    var o := k.work.o;
    ZeroDecisionIff(u.cfg, k.panic, o);
    if u.delayed { CurrentZeroIff(u, k, o.now, DecidedOn(u, k, o), v); }
  }

  lemma CurrentZeroIff(u: Setup, k: KeyState, now: Time, decision: int, v: int)
    requires ValidSetup(u) && u.delayed && decision >= 0
    requires IsCurrent(u.live, k.window + [Record(now, decision)], now, v)
    ensures v == 0 <==> decision == 0 && NothingDelayed(u, k, now)
  {
    var records := k.window + [Record(now, decision)];
    assert records[|k.window|] == Record(now, decision);
    assert forall i | 0 <= i < |k.window| :: records[i] == k.window[i];
  }

  /** While requests are outstanding the ticker runs, except inside the call that brought the first one. */
  lemma {:induction false} TickerRuns(u: Setup, states: seq<KeyState>, labels: seq<Label>, n: nat)
    requires IsRun(u, states, labels) && n < |states|
    ensures states[n].outstanding > 0 ==> states[n].active || states[n].call.Counted?
    ensures states[n].outstanding >= if states[n].call.NoCall? then 0 else 1
  {
    if n > 0 {
      TickerRuns(u, states, labels, n - 1);
      assert StepAt(u, states, labels, n - 1);
      ArrivalStep(u, states[n - 1], labels[n - 1], states[n]);
    }
  }

  /** Who changes the number of outstanding requests, and where the relay is then. */
  lemma ArrivalStep(u: Setup, k: KeyState, l: Label, k': KeyState)
    requires u.cfg.Valid() && Next(u, k, l, k')
    ensures k.active ==> k'.active
    ensures match l
      case CountIn => k.call.NoCall? && k'.call.Counted? && k'.outstanding == k.outstanding + 1
      case Activate => k.call.Counted? && k'.call.Activated? && k'.outstanding == k.outstanding && k'.active
      case CheckZero => k.call.Activated? && k'.call.NoCall? && k'.outstanding == k.outstanding
      case Leave => k.call.NoCall? && k'.call.NoCall? && k'.outstanding == k.outstanding - 1 >= 0
      case _ => k'.call == k.call && k'.outstanding == k.outstanding
  {
  }

  // ---- a target's decider is the decider of its history ----------------------------------------

  /** The observations on which the first `n` steps published a decision, in order. */
  function DecidedObs(states: seq<KeyState>, labels: seq<Label>, n: nat): seq<Observation>
    requires |states| == |labels| + 1 && n <= |labels|
  {
    if n == 0 then []
    else
      DecidedObs(states, labels, n - 1)
      + if labels[n - 1].Publish? && states[n - 1].work.Deciding? then [states[n - 1].work.o] else []
  }

  /** Panic state, delay window and published scale of a target are what its decided observations make them. */
  ghost predicate MatchesHistory(u: Setup, k: KeyState, obs: seq<Observation>)
    requires u.cfg.Valid()
  {
    var w, sigs, n := u.cfg.stableWindow, Signals(u.cfg, obs), |obs|;
    && k.panic == StateAfter(w, sigs, n)
    && k.window == (if u.delayed && n > 0 then Recorded(w, sigs, n - 1) else [])
    && (if n == 0 then k.desired == 0
        else if u.delayed then IsCurrent(u.live, Recorded(w, sigs, n - 1), obs[n - 1].now, k.desired)
        else k.desired == DecisionAt(w, sigs, n - 1))
  }

  /** The decision on one more observation is the one that the history specification makes. */
  lemma {:induction false} DecidesByHistory(u: Setup, k: KeyState, o: Observation, obs: seq<Observation>)
    requires u.cfg.Valid() && k.panic == StateAfter(u.cfg.stableWindow, Signals(u.cfg, obs), |obs|)
    ensures var w, sigs := u.cfg.stableWindow, Signals(u.cfg, obs + [o]);
      && NextPanicState(w, k.panic, SignalOf(u.cfg, o)) == StateAfter(w, sigs, |obs| + 1)
      && DecidedOn(u, k, o) == DecisionAt(w, sigs, |obs|)
  {
    var sigs := Signals(u.cfg, obs);
    assert Signals(u.cfg, obs + [o]) == sigs + [SignalOf(u.cfg, o)];
    StateOfPrefix(u.cfg.stableWindow, sigs, SignalOf(u.cfg, o), |obs|);
  }

  lemma {:induction false} WindowByHistory(u: Setup, k: KeyState, o: Observation, obs: seq<Observation>)
    requires u.cfg.Valid() && MatchesHistory(u, k, obs) && u.delayed
    ensures Recorded(u.cfg.stableWindow, Signals(u.cfg, obs + [o]), |obs|) ==
            k.window + [Record(o.now, DecidedOn(u, k, o))]
  {
    assert Signals(u.cfg, obs + [o]) == Signals(u.cfg, obs) + [SignalOf(u.cfg, o)];
    DecidesByHistory(u, k, o, obs);
    RecordedNext(u.cfg.stableWindow, Signals(u.cfg, obs), SignalOf(u.cfg, o));
  }

  lemma {:induction false} PublishMatches(u: Setup, k: KeyState, v: int, obs: seq<Observation>)
    requires u.cfg.Valid() && Enabled(u, k, Publish(v)) && MatchesHistory(u, k, obs)
    ensures MatchesHistory(u, Published(u, k, k.work.o, v), obs + [k.work.o])
  {
    DecidesByHistory(u, k, k.work.o, obs);
    if u.delayed { WindowByHistory(u, k, k.work.o, obs); }
    assert (obs + [k.work.o])[|obs|] == k.work.o;
  }

  /** In every run, a target's decider refines the history specification on the observations it decided on. */
  lemma {:induction false} RunMatchesHistory(u: Setup, states: seq<KeyState>, labels: seq<Label>, n: nat)
    requires IsRun(u, states, labels) && n < |states|
    ensures MatchesHistory(u, states[n], DecidedObs(states, labels, n))
  {
    if n > 0 {
      RunMatchesHistory(u, states, labels, n - 1);
      assert StepAt(u, states, labels, n - 1);
      var k, l := states[n - 1], labels[n - 1];
      if l.Publish? {
        PublishMatches(u, k, l.published, DecidedObs(states, labels, n - 1));
      } else {
        OnlyPublishDecides(u, k, l, states[n]);
        assert DecidedObs(states, labels, n) == DecidedObs(states, labels, n - 1);
      }
    }
  }

  lemma OnlyPublishDecides(u: Setup, k: KeyState, l: Label, k': KeyState)
    requires u.cfg.Valid() && Next(u, k, l, k') && !l.Publish?
    ensures k'.panic == k.panic && k'.window == k.window && k'.desired == k.desired
  {
  }

  // ---- left at zero ----------------------------------------------------------------------------

  /** At zero, with nothing queued and no attempt under way. */
  predicate Settled(k: KeyState) { k.desired == 0 && !k.queued && k.work.Resting? }

  /** Settled although requests are outstanding and none of them is just being announced. */
  predicate Stranded(k: KeyState) { Settled(k) && k.outstanding > 0 && k.call.NoCall? }

  /** The steps that queue a key: a tick, and unless asynchronous an arrival that finds the scale at zero. */
  predicate Wakes(async: bool, k: KeyState, l: Label) { l.Tick? || (!async && l.CheckZero? && k.desired == 0) }

  /** No step from `a` up to `n` queues the key. */
  predicate Quiet(u: Setup, states: seq<KeyState>, labels: seq<Label>, a: nat, n: nat)
    requires |states| == |labels| + 1 && n < |states|
  {
    a >= n || (Quiet(u, states, labels, a, n - 1) && !Wakes(u.async, states[n - 1], labels[n - 1]))
  }

  lemma {:induction false} QuietAt(u: Setup, states: seq<KeyState>, labels: seq<Label>, a: nat, i: nat, n: nat)
    requires |states| == |labels| + 1 && a <= i < n < |states| && Quiet(u, states, labels, a, n)
    ensures !Wakes(u.async, states[i], labels[i]) && Quiet(u, states, labels, a, i) && Quiet(u, states, labels, i, n)
  {
    if i + 1 < n { QuietAt(u, states, labels, a, i, n - 1); }
  }

  /** The attempt begun at `b` ended at `m` with the scale at zero, and nothing has queued the key since it began. */
  ghost predicate AttemptLeftZero(u: Setup, states: seq<KeyState>, labels: seq<Label>, b: nat, m: nat, n: nat)
    requires |states| == |labels| + 1 && n < |states|
  {
    && b < m < n && labels[b].Begin? && (labels[m].Fail? || labels[m].Publish?) && states[m + 1].desired == 0
    && Quiet(u, states, labels, b + 1, n)
  }

  /** How one step changes whether the key is queued, in work, or settled. */
  lemma QueueStep(u: Setup, k: KeyState, l: Label, k': KeyState)
    requires u.cfg.Valid() && Next(u, k, l, k')
    ensures !k.queued && !Wakes(u.async, k, l) ==> !k'.queued
    ensures !k'.queued ==> !Wakes(u.async, k, l) && (!k.queued || l.Begin?)
    ensures !k'.work.Resting? && !l.Begin? ==> !k.work.Resting?
    ensures Settled(k) && !Wakes(u.async, k, l) ==> Settled(k')
    ensures Settled(k') ==> Settled(k) || ((l.Fail? || l.Publish?) && !k.work.Resting? && !k.queued)
  {
  }

  lemma {:induction false} UnqueuedStays(u: Setup, states: seq<KeyState>, labels: seq<Label>, a: nat, n: nat)
    requires IsRun(u, states, labels) && a <= n < |states| && !states[a].queued && Quiet(u, states, labels, a, n)
    ensures !states[n].queued
  {
    if a < n {
      UnqueuedStays(u, states, labels, a, n - 1);
      assert StepAt(u, states, labels, n - 1);
      QueueStep(u, states[n - 1], labels[n - 1], states[n]);
    }
  }

  lemma {:induction false} SettledStays(u: Setup, states: seq<KeyState>, labels: seq<Label>, a: nat, n: nat)
    requires IsRun(u, states, labels) && a <= n < |states| && Settled(states[a]) && Quiet(u, states, labels, a, n)
    ensures Settled(states[n])
  {
    if a < n {
      SettledStays(u, states, labels, a, n - 1);
      assert StepAt(u, states, labels, n - 1);
      QueueStep(u, states[n - 1], labels[n - 1], states[n]);
    }
  }

  /** An attempt under way on an unqueued key began when the key was last taken off the queue. */
  lemma {:induction false} BegunAt(u: Setup, states: seq<KeyState>, labels: seq<Label>, n: nat) returns (b: nat)
    requires IsRun(u, states, labels) && n < |states| && !states[n].work.Resting? && !states[n].queued
    ensures b < n && labels[b].Begin? && Quiet(u, states, labels, b + 1, n)
  {
    assert StepAt(u, states, labels, n - 1);
    QueueStep(u, states[n - 1], labels[n - 1], states[n]);
    if labels[n - 1].Begin? {
      b := n - 1;
    } else {
      b := BegunAt(u, states, labels, n - 1);
    }
  }

  lemma {:induction false} SettledSince(u: Setup, states: seq<KeyState>, labels: seq<Label>, n: nat)
    returns (b: nat, m: nat)
    requires IsRun(u, states, labels) && n < |states| && Settled(states[n])
    ensures Quiet(u, states, labels, 0, n) || AttemptLeftZero(u, states, labels, b, m, n)
  {
    b, m := 0, 0;
    if n > 0 {
      assert StepAt(u, states, labels, n - 1);
      QueueStep(u, states[n - 1], labels[n - 1], states[n]);
      if Settled(states[n - 1]) {
        b, m := SettledSince(u, states, labels, n - 1);
      } else {
        m := n - 1;
        b := BegunAt(u, states, labels, m);
      }
    }
  }

  lemma LeftZeroSettled(u: Setup, states: seq<KeyState>, labels: seq<Label>, b: nat, m: nat, n: nat)
    requires IsRun(u, states, labels) && n < |states| && AttemptLeftZero(u, states, labels, b, m, n)
    ensures Settled(states[n])
    ensures forall i | m < i < n :: Settled(states[i]) && !Wakes(u.async, states[i], labels[i])
  {
    EndOfAttempt(u, states, labels, b, m, n);
    SettledStays(u, states, labels, m + 1, n);
    forall i | m < i < n ensures Settled(states[i]) && !Wakes(u.async, states[i], labels[i]) {
      QuietAt(u, states, labels, m + 1, i, n);
      SettledStays(u, states, labels, m + 1, i);
    }
  }

  lemma UnqueuedSinceBegin(u: Setup, states: seq<KeyState>, labels: seq<Label>, b: nat, n: nat)
    requires IsRun(u, states, labels) && b < n < |states| && labels[b].Begin? && Quiet(u, states, labels, b + 1, n)
    ensures !states[n].queued
  {
    assert StepAt(u, states, labels, b);
    UnqueuedStays(u, states, labels, b + 1, n);
  }

  lemma EndStep(u: Setup, k: KeyState, l: Label, k': KeyState)
    requires u.cfg.Valid() && Next(u, k, l, k') && (l.Fail? || l.Publish?)
    ensures k'.work.Resting? && k'.queued == k.queued
  {
  }

  lemma EndOfAttempt(u: Setup, states: seq<KeyState>, labels: seq<Label>, b: nat, m: nat, n: nat)
    requires IsRun(u, states, labels) && n < |states| && AttemptLeftZero(u, states, labels, b, m, n)
    ensures Settled(states[m + 1]) && Quiet(u, states, labels, m + 1, n)
  {
    QuietAt(u, states, labels, b + 1, m, n);
    if m + 1 < n { QuietAt(u, states, labels, b + 1, m + 1, n); }
    UnqueuedSinceBegin(u, states, labels, b, m);
    assert StepAt(u, states, labels, m);
    EndStep(u, states[m], labels[m], states[m + 1]);
  }

  /**
   In both modes, a target is settled at zero if and only if nothing has ever queued it, or its latest
   attempt left it at zero and nothing has queued it since that attempt began.
   */
  lemma SettledIff(u: Setup, states: seq<KeyState>, labels: seq<Label>, n: nat)
    requires IsRun(u, states, labels) && n < |states|
    ensures Settled(states[n]) <==>
            Quiet(u, states, labels, 0, n) || exists b: nat, m: nat :: AttemptLeftZero(u, states, labels, b, m, n)
  {
    if Settled(states[n]) {
      var b, m := SettledSince(u, states, labels, n);
    }
    if Quiet(u, states, labels, 0, n) {
      SettledStays(u, states, labels, 0, n);
    }
    if b: nat, m: nat :| AttemptLeftZero(u, states, labels, b, m, n) {
      LeftZeroSettled(u, states, labels, b, m, n);
    }
  }

  // ---- why an attempt decides on zero ----------------------------------------------------------

  /** Without a completed arrival, no request is outstanding beyond the one just being announced. */
  lemma {:induction false} NoneArrived(u: Setup, states: seq<KeyState>, labels: seq<Label>, a: nat, n: nat)
    requires IsRun(u, states, labels) && a <= n < |states| && states[a].outstanding == 0 && states[a].call.NoCall?
    requires forall i | a <= i < n :: !labels[i].CheckZero?
    ensures states[n].outstanding == if states[n].call.NoCall? then 0 else 1
  {
    if a < n {
      NoneArrived(u, states, labels, a, n - 1);
      assert StepAt(u, states, labels, n - 1);
      ArrivalStep(u, states[n - 1], labels[n - 1], states[n]);
    }
  }

  /** What a worker decides on was observed at an earlier step, of the same attempt. */
  lemma {:induction false} ObservedAt(u: Setup, states: seq<KeyState>, labels: seq<Label>, b: nat, n: nat)
    returns (a: nat)
    requires IsRun(u, states, labels) && b < n < |states| && labels[b].Begin? && states[n].work.Deciding?
    ensures b < a < n && labels[a].Observe?
    ensures states[n].work.o == Observation(
              labels[a].now, labels[a].ready, labels[a].stable, labels[a].panicValue, states[a].outstanding as real)
  {
    assert StepAt(u, states, labels, n - 1);
    if labels[n - 1].Observe? {
      a := n - 1;
    } else {
      a := ObservedAt(u, states, labels, b, n - 1);
    }
  }

  /** The reconcile observed no request, and one arrived before it published and saw the old, nonzero scale. */
  ghost predicate Raced(states: seq<KeyState>, labels: seq<Label>, b: nat, m: nat)
    requires |states| == |labels| + 1 && m < |labels|
  {
    exists a: nat, d: nat :: b < a < d < m && labels[a].Observe? && states[a].outstanding == 0
                   && labels[d].CheckZero? && states[d].desired != 0
  }

  /** The three ways in which a scale attempt leaves a target at zero although requests are outstanding. */
  ghost predicate Excuse(states: seq<KeyState>, labels: seq<Label>, b: nat, m: nat)
    requires |states| == |labels| + 1 && m < |labels|
  {
    || labels[m].Fail?
    || (labels[m].Publish? && states[m].work.Deciding? && states[m].work.o.ready > 0)
    || (labels[m].Publish? && Raced(states, labels, b, m))
  }

  /** After an attempt that left zero, no arrival is completed any more: it would queue the key. */
  lemma NoneCompletedAfter(u: Setup, states: seq<KeyState>, labels: seq<Label>, b: nat, m: nat, n: nat, d: nat)
    requires IsRun(u, states, labels) && !u.async && n < |states| && AttemptLeftZero(u, states, labels, b, m, n)
    requires b < d < n && labels[d].CheckZero?
    ensures d < m && states[d].desired != 0
  {
    QuietAt(u, states, labels, b + 1, d, n);
    LeftZeroSettled(u, states, labels, b, m, n);
  }

  /** Requests outstanding now, but none at the observation: one of them arrived in between. */
  lemma LateArrival(u: Setup, states: seq<KeyState>, labels: seq<Label>, a: nat, n: nat) returns (d: nat)
    requires IsRun(u, states, labels) && a < n < |states| && labels[a].Observe? && states[a].outstanding <= 0
    requires states[n].outstanding > 0 && states[n].call.NoCall?
    ensures a < d < n && labels[d].CheckZero?
  {
    TickerRuns(u, states, labels, a);
    if forall i | a <= i < n :: !labels[i].CheckZero? {
      NoneArrived(u, states, labels, a, n);
    }
    d :| a <= d < n && labels[d].CheckZero?;
  }

  lemma AttemptHasExcuse(u: Setup, states: seq<KeyState>, labels: seq<Label>, b: nat, m: nat, n: nat)
    requires IsRun(u, states, labels) && !u.async && n < |states| && AttemptLeftZero(u, states, labels, b, m, n)
    requires states[n].outstanding > 0 && states[n].call.NoCall?
    ensures Excuse(states, labels, b, m)
  {
    assert StepAt(u, states, labels, m);
    if labels[m].Publish? && states[m].work.o.ready == 0 {
      var a := ObservedAt(u, states, labels, b, m);
      if states[a].outstanding > 0 { ColdReconcilePublishes(u, states[m], labels[m].published); }
      TickerRuns(u, states, labels, a);
      var d := LateArrival(u, states, labels, a, n);
      NoneCompletedAfter(u, states, labels, b, m, n, d);
    }
  }

  /**
   Scale from zero, over whole runs: unless scaling is asynchronous, a target with requests outstanding is
   left at zero if and only if its latest attempt ended at zero and nothing has queued it since that attempt
   began; and then the attempt failed, or saw a ready pod, or a request overtook it between its observation
   and its publication.
   */
  lemma StrandedIffGaveUp(u: Setup, states: seq<KeyState>, labels: seq<Label>, n: nat)
    requires IsRun(u, states, labels) && !u.async && n < |states|
    requires states[n].outstanding > 0 && states[n].call.NoCall?
    ensures Stranded(states[n]) <==>
            exists b: nat, m: nat :: AttemptLeftZero(u, states, labels, b, m, n) && Excuse(states, labels, b, m)
  {
    SettledIff(u, states, labels, n);
    if Quiet(u, states, labels, 0, n) {
      forall i | 0 <= i < n ensures !labels[i].CheckZero? {
        QuietAt(u, states, labels, 0, i, n);
        SettledStays(u, states, labels, 0, i);
      }
      NoneArrived(u, states, labels, 0, n);
    }
    if b: nat, m: nat :| AttemptLeftZero(u, states, labels, b, m, n) {
      AttemptHasExcuse(u, states, labels, b, m, n);
    }
  }

  ghost predicate NoTick(labels: seq<Label>, a: nat, n: nat)
    requires n <= |labels|
  {
    forall i | a <= i < n :: !labels[i].Tick?
  }

  lemma {:induction false} QuietMeansNoTick(u: Setup, states: seq<KeyState>, labels: seq<Label>, a: nat, n: nat)
    requires u.async && |states| == |labels| + 1 && n < |states|
    ensures Quiet(u, states, labels, a, n) <==> NoTick(labels, a, n)
  {
    if a < n { QuietMeansNoTick(u, states, labels, a, n - 1); }
  }

  /** The attempt begun at `b` ended at `m` with the scale at zero, and the ticker has not fired since it began. */
  ghost predicate LeftZeroUnticked(states: seq<KeyState>, labels: seq<Label>, b: nat, m: nat, n: nat)
    requires |states| == |labels| + 1 && n < |states|
  {
    && b < m < n && labels[b].Begin? && (labels[m].Fail? || labels[m].Publish?) && states[m + 1].desired == 0
    && NoTick(labels, b + 1, n)
  }

  /**
   Asynchronous mode: a target with requests outstanding is left at zero if and only if the ticker has not
   fired yet, or the latest attempt ended at zero and the ticker has not fired since that attempt began.
   */
  lemma AsyncStrandedIff(u: Setup, states: seq<KeyState>, labels: seq<Label>, n: nat)
    requires IsRun(u, states, labels) && u.async && n < |states|
    requires states[n].outstanding > 0 && states[n].call.NoCall?
    ensures Stranded(states[n]) <==>
            NoTick(labels, 0, n) || exists b: nat, m: nat :: LeftZeroUnticked(states, labels, b, m, n)
  {
    SettledIff(u, states, labels, n);
    forall a: nat ensures Quiet(u, states, labels, a, n) <==> NoTick(labels, a, n) {
      QuietMeansNoTick(u, states, labels, a, n);
    }
    if b: nat, m: nat :| AttemptLeftZero(u, states, labels, b, m, n) {
      assert LeftZeroUnticked(states, labels, b, m, n);
    }
    if b: nat, m: nat :| LeftZeroUnticked(states, labels, b, m, n) {
      assert AttemptLeftZero(u, states, labels, b, m, n);
    }
  }

  /** In particular the first request of a run leaves its target at zero until a tick. */
  lemma AsyncStrandsFirstRequest(u: Setup)
    requires ValidSetup(u) && u.async
    ensures var states := [NewKey, CountedIn(NewKey), MadeActive(CountedIn(NewKey)), OnReqIn(true, NewKey)];
      IsRun(u, states, [CountIn, Activate, CheckZero]) && Stranded(states[3])
  {
    var labels := [CountIn, Activate, CheckZero];
    var states := [NewKey, CountedIn(NewKey), MadeActive(CountedIn(NewKey)), OnReqIn(true, NewKey)];
    forall i: nat | i < 3 ensures StepAt(u, states, labels, i) {
      assert i == 0 || i == 1 || i == 2;
    }
  }

  // ---- each excuse has its run -----------------------------------------------------------------

  /** Which excuse a run is to show, and what its steps leave out so that no other one applies. */
  datatype Showing = Failure | ReadyPod | Race

  predicate Allowed(x: Showing, l: Label) {
    match x
    case Failure => !l.Publish?
    case ReadyPod => !l.Fail?
    case Race => !l.Fail? && (l.Observe? ==> l.ready == 0)
  }

  ghost predicate AllAllowed(x: Showing, labels: seq<Label>) { forall i | 0 <= i < |labels| :: Allowed(x, labels[i]) }

  ghost predicate Reaches(u: Setup, x: Showing, k: KeyState) {
    exists states, labels :: IsRun(u, states, labels) && states[|labels|] == k && AllAllowed(x, labels)
  }

  lemma ReachesNew(u: Setup, x: Showing)
    requires ValidSetup(u)
    ensures Reaches(u, x, NewKey)
  {
    var labels: seq<Label> := [];
    assert IsRun(u, [NewKey], labels) && [NewKey][|labels|] == NewKey && AllAllowed(x, labels);
  }

  lemma ReachesNext(u: Setup, x: Showing, k: KeyState, l: Label)
    requires ValidSetup(u) && Reaches(u, x, k) && Enabled(u, k, l) && Allowed(x, l)
    ensures Reaches(u, x, Apply(u, k, l))
  {
    var states, labels :| IsRun(u, states, labels) && states[|labels|] == k && AllAllowed(x, labels);
    var states', labels' := states + [Apply(u, k, l)], labels + [l];
    forall i: nat | i < |labels'| ensures StepAt(u, states', labels', i) {
      if i < |labels| {
        assert StepAt(u, states, labels, i);
        assert labels'[i] == labels[i] && states'[i] == states[i] && states'[i + 1] == states[i + 1];
      }
    }
    assert IsRun(u, states', labels') && AllAllowed(x, labels');
  }

  /** The rates and windows of the shipped configuration, in seconds, with scaling not asynchronous. */
  const Shipped := Setup(false, Config(1.0, 1000.0, 2.0, 60, 2.0), true, (at, now) => now - 30 <= at <= now)

  /** Both window averages are zero. */
  function Idle(now: Time, ready: nat, instant: real): Observation { Observation(now, ready, 0.0, 0.0, instant) }

  /** Rounded down, half of one ready pod is none. */
  lemma IdleSignal(now: Time, ready: nat, instant: real)
    requires ready <= 1
    ensures var v := if ready == 0 && instant > 0.0 then 1 else 0;
      SignalOf(Shipped.cfg, Idle(now, ready, instant)) == Signal(now, false, v, v)
  {
    var o := Idle(now, ready, instant);
    assert UpperBound(Shipped.cfg, o) == 1000;
    assert LowerBound(Shipped.cfg, o) == if ready == 0 && instant > 0.0 then 1 else 0;
    assert PodsFor(Shipped.cfg, 0.0) == 0;
  }

  /** An attempt on a queued key, from its beginning up to its observation. */
  lemma Observes(x: Showing, k: KeyState, now: Time, ready: nat)
    requires Reaches(Shipped, x, k) && k.queued && k.work.Resting? && (x.Race? ==> ready == 0)
    ensures Reaches(Shipped, x, k.(queued := false, work := Deciding(Idle(now, ready, k.outstanding as real))))
  {
    ReachesNext(Shipped, x, k, Begin);
    ReachesNext(Shipped, x, k.(queued := false, work := Listing), Observe(now, ready, 0.0, 0.0));
  }

  /** Publishing what an attempt decided, when all earlier records have left the delay window. */
  lemma PublishesAlone(x: Showing, k: KeyState, o: Observation, v: int)
    requires k.work == Deciding(o) && o == Idle(o.now, o.ready, o.instant) && o.ready <= 1 && k.panic == Calm
    requires v == (if o.ready == 0 && o.instant > 0.0 then 1 else 0) && !x.Failure?
    requires forall i | 0 <= i < |k.window| :: k.window[i].at < o.now - 30
    requires Reaches(Shipped, x, k)
    ensures Reaches(Shipped, x, k.(desired := v, work := Resting, window := k.window + [Record(o.now, v)]))
  {
    IdleSignal(o.now, o.ready, o.instant);
    var records := k.window + [Record(o.now, v)];
    assert DecidedOn(Shipped, k, o) == v;
    assert records[|k.window|] == Record(o.now, v);
    assert IsCurrent(Shipped.live, records, o.now, v);
    ReachesNext(Shipped, x, k, Publish(v));
  }

  /** A whole arrival. */
  lemma Arrives(x: Showing, k: KeyState)
    requires Reaches(Shipped, x, k) && k.call.NoCall?
    ensures Reaches(Shipped, x, OnReqIn(false, k))
  {
    ReachesNext(Shipped, x, k, CountIn);
    ReachesNext(Shipped, x, CountedIn(k), Activate);
    ReachesNext(Shipped, x, MadeActive(CountedIn(k)), CheckZero);
  }

  /** One pod has been asked for, for `outstanding` requests; nothing is going on. */
  function AtOne(outstanding: int): KeyState {
    KeyState(outstanding, true, 1, false, NoCall, Resting, Calm, [Record(1, 1)])
  }

  lemma FirstRequestScaled(x: Showing)
    requires !x.Failure?
    ensures Reaches(Shipped, x, AtOne(1))
  {
    ReachesNew(Shipped, x);
    Arrives(x, NewKey);
    var k := OnReqIn(false, NewKey);
    Observes(x, k, 1, 0);
    PublishesAlone(x, k.(queued := false, work := Deciding(Idle(1, 0, 1.0))), Idle(1, 0, 1.0), 1);
    assert [] + [Record(1, 1)] == [Record(1, 1)];
  }

  /** The first excuse: the only attempt fails, and nothing is published. */
  lemma FailedAttemptStrands()
    ensures var k := KeyState(1, true, 0, false, NoCall, Resting, Calm, []);
      Reaches(Shipped, Failure, k) && Stranded(k)
  {
    ReachesNew(Shipped, Failure);
    Arrives(Failure, NewKey);
    var k := OnReqIn(false, NewKey);
    ReachesNext(Shipped, Failure, k, Begin);
    ReachesNext(Shipped, Failure, k.(queued := false, work := Listing), Fail);
  }

  const LeftAtZero := KeyState(1, true, 0, false, NoCall, Resting, Calm, [Record(1, 1), Record(100, 0)])

  /** The second excuse: with the request in service on one ready pod and averages of zero, the pod is given up. */
  lemma WarmReconcileStrands()
    ensures Reaches(Shipped, ReadyPod, LeftAtZero) && Stranded(LeftAtZero)
  {
    FirstRequestScaled(ReadyPod);
    ReachesNext(Shipped, ReadyPod, AtOne(1), Tick);
    Observes(ReadyPod, AtOne(1).(queued := true), 100, 1);
    PublishesAlone(ReadyPod, AtOne(1).(work := Deciding(Idle(100, 1, 1.0))), Idle(100, 1, 1.0), 0);
    assert [Record(1, 1)] + [Record(100, 0)] == [Record(1, 1), Record(100, 0)];
  }

  /**
   The third excuse: a reconcile that observes no request decides on zero, a request arrives and sees the old
   scale of one, and then the zero is published. No attempt failed and none saw a ready pod.
   */
  lemma OvertakenReconcileStrands()
    ensures Reaches(Shipped, Race, LeftAtZero) && Stranded(LeftAtZero)
  {
    FirstRequestScaled(Race);
    ReachesNext(Shipped, Race, AtOne(1), Leave);
    ReachesNext(Shipped, Race, AtOne(0), Tick);
    Observes(Race, AtOne(0).(queued := true), 100, 0);
    var k := AtOne(0).(work := Deciding(Idle(100, 0, 0.0)));
    Arrives(Race, k);
    PublishesAlone(Race, k.(outstanding := 1), Idle(100, 0, 0.0), 0);
    assert [Record(1, 1)] + [Record(100, 0)] == [Record(1, 1), Record(100, 0)];
  }

  // ---- the autoscaler object -------------------------------------------------------------------

  datatype Verdict = Done | PanicNotStarted | PanicNoDecider

  class AutoscalerImpl {
    const async: bool
    var started: bool
    var keys: map<string, KeyState>

    constructor (async: bool, targets: set<string>)
      ensures this.async == async && !started && keys == map t | t in targets :: NewKey
    {
      this.async, started, keys := async, false, map t | t in targets :: NewKey;
    }

    /** From here on requests are accepted. */
    method Run()
      modifies `started
      ensures started
    {
      started := true;
    }

    method ReqIn(target: string) returns (v: Verdict)
      modifies `keys
      ensures v == if !started then PanicNotStarted else if target !in old(keys) then PanicNoDecider else Done
      ensures keys == if v.Done? then old(keys)[target := OnReqIn(async, old(keys)[target])] else old(keys)
    {
      if !started {
        return PanicNotStarted;
      }
      if target !in keys {
        return PanicNoDecider;
      }
      keys := keys[target := CountedIn(keys[target])];
      keys := keys[target := MadeActive(keys[target])];
      keys := keys[target := ZeroChecked(async, keys[target])];
      return Done;
    }

    method ReqOut(target: string) returns (v: Verdict)
      modifies `keys
      ensures v == if !started then PanicNotStarted else if target !in old(keys) then PanicNoDecider else Done
      ensures keys == if v.Done? then old(keys)[target := OnReqOut(old(keys)[target])] else old(keys)
    {
      if !started {
        return PanicNotStarted;
      }
      if target !in keys {
        return PanicNoDecider;
      }
      keys := keys[target := keys[target].(outstanding := keys[target].outstanding - 1)];
      return Done;
    }

    /** The number of ready pods that `scale` passes to the decider. */
    method CountReady(ready: seq<bool>) returns (n: nat)
      ensures n == |set i | 0 <= i < |ready| && ready[i]|
    {
      n := 0;
      ghost var seen: set<int> := {};
      for i := 0 to |ready|
        invariant seen == set j | 0 <= j < i && ready[j]
        invariant n == |seen|
      {
        if ready[i] {
          n := n + 1;
          seen := seen + {i};
        }
      }
      assert seen == set i | 0 <= i < |ready| && ready[i];
    }
  }
}
