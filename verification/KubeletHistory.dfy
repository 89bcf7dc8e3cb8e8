/**
 Properties of whole runs of the kubelet: what a handshake snapshot contains, how
 epochs fence off late binds, when a pod may be exposed a second time, and why a
 pod is never reported ready early.
 */
module KubeletHistory {
  import opened Common
  import opened Kubelet
  import opened KubeletSystem
  import opened KubeletDecisions
  import opened KubeletInvariants
  import opened KubeletNoLoss

  // ---- epoch fencing ---------------------------------------------------------------------------

  lemma EpochsKept(c: Cluster, s: State, l: Label, source: string)
    requires Enabled(c, s, l) && !(l.LHandshake? && l.source == source)
    ensures Lookup(Apply(c, s, l).local.epochs, source) == Lookup(s.local.epochs, source)
  {
    if l.LSync? { SyncSummary(c, s, l.key, l.o); }
  }

  lemma {:induction false} EpochHolds(c: Cluster, states: seq<State>, labels: seq<Label>, h: nat, i: nat)
    requires IsRun(c, states, labels) && h < i <= |labels| && labels[h].LHandshake?
    requires forall m | h < m < i :: !(labels[m].LHandshake? && labels[m].source == labels[h].source)
    ensures Lookup(states[i].local.epochs, labels[h].source) == Some(labels[h].epoch)
  {
    assert StepAt(c, states, labels, i - 1);
    if h + 1 < i {
      EpochHolds(c, states, labels, h, i - 1);
      EpochsKept(c, states[i - 1], labels[i - 1], labels[h].source);
    }
  }

  /** After a handshake, a bind from the same source under any other epoch changes nothing until the next handshake. */
  lemma StaleBindIsRefused(c: Cluster, states: seq<State>, labels: seq<Label>, h: nat, i: nat)
    requires IsRun(c, states, labels) && h < i < |labels| && labels[h].LHandshake?
    requires forall m | h < m < i :: !(labels[m].LHandshake? && labels[m].source == labels[h].source)
    requires labels[i].LBindPod? && labels[i].source == labels[h].source && labels[i].epoch != labels[h].epoch
    ensures states[i + 1] == states[i]
    ensures !BindReplyFor(states[i].local, states[i].templates, labels[i].source, labels[i].epoch,
            labels[i].info).Accepted?
  {
    EpochHolds(c, states, labels, h, i);
    assert StepAt(c, states, labels, i);
  }

  // ---- the handshake snapshot is a consistent cut ----------------------------------------------

  /** Step `i` is a BindPod that put `info` into the in-memory cache. */
  predicate AcceptedAt(states: seq<State>, labels: seq<Label>, i: nat, info: PodInfo)
    requires |states| == |labels| + 1
  {
    i < |labels| && Acceptable(states[i], labels[i]) && labels[i].info == info
  }

  /** Step `m` runs the event handler for an API object of a managed pod named `n`. */
  predicate ObservedAt(states: seq<State>, labels: seq<Label>, m: nat, n: string)
    requires |states| == |labels| + 1
  {
    && m < |labels| && labels[m].LHandle? && |states[m].events| > 0
    && var notice := Filtered(states[m].events[0]);
       notice.Notice? && notice.pod.name == n && notice.pod.managed && notice.pod.persistent
  }

  ghost predicate UnobservedBetween(states: seq<State>, labels: seq<Label>, i: nat, j: nat, n: string)
    requires |states| == |labels| + 1
  {
    forall m | i < m < j :: !ObservedAt(states, labels, m, n)
  }

  /** The only ways a step changes what the cache holds under `n`. */
  lemma InMemStep(c: Cluster, s: State, l: Label, n: string)
    requires Enabled(c, s, l)
    ensures var s' := Apply(c, s, l);
      if Acceptable(s, l) && l.info.name == n
      then Lookup(s'.local.inMem, n) == Some(l.info) && n !in s.local.inMem
      else if l.LHandle? && Filtered(s.events[0]).Notice? && Filtered(s.events[0]).pod.name == n
              && Filtered(s.events[0]).pod.managed && Filtered(s.events[0]).pod.persistent
      then n !in s'.local.inMem
      else Lookup(s'.local.inMem, n) == Lookup(s.local.inMem, n)
  {
    if l.LSync? { SyncSummary(c, s, l.key, l.o); }
  }

  lemma {:induction false} AcceptedStays(c: Cluster, states: seq<State>, labels: seq<Label>, i: nat, j: nat,
      info: PodInfo)
    requires IsRun(c, states, labels) && i < j < |states|
    requires AcceptedAt(states, labels, i, info) && UnobservedBetween(states, labels, i, j, info.name)
    ensures Lookup(states[j].local.inMem, info.name) == Some(info)
  {
    assert StepAt(c, states, labels, j - 1);
    InMemStep(c, states[j - 1], labels[j - 1], info.name);
    if i + 1 < j {
      AcceptedStays(c, states, labels, i, j - 1, info);
      assert !ObservedAt(states, labels, j - 1, info.name);
    }
  }

  lemma {:induction false} CachedWasAccepted(c: Cluster, states: seq<State>, labels: seq<Label>, j: nat,
      info: PodInfo) returns (i: nat)
    requires IsRun(c, states, labels) && j < |states|
    requires Lookup(states[j].local.inMem, info.name) == Some(info)
    ensures i < j && AcceptedAt(states, labels, i, info) && UnobservedBetween(states, labels, i, j, info.name)
  {
    assert StepAt(c, states, labels, j - 1);
    InMemStep(c, states[j - 1], labels[j - 1], info.name);
    if AcceptedAt(states, labels, j - 1, info) {
      i := j - 1;
    } else {
      assert !ObservedAt(states, labels, j - 1, info.name);
      i := CachedWasAccepted(c, states, labels, j - 1, info);
    }
  }

  /**
   What a handshake at step `h` returns for a node is exactly the set of pods of that node that
   some BindPod accepted and whose API object has had no event handled since they were accepted.
   */
  lemma SnapshotIsConsistentCut(c: Cluster, states: seq<State>, labels: seq<Label>, h: nat, info: PodInfo)
    requires IsRun(c, states, labels) && h < |labels| && labels[h].LHandshake?
    ensures info in Snapshot(states[h + 1].local, labels[h].node) <==>
            info.node == labels[h].node &&
            exists i :: 0 <= i < h && AcceptedAt(states, labels, i, info)
              && UnobservedBetween(states, labels, i, h, info.name)
  {
    assert StepAt(c, states, labels, h);
    assert states[h + 1].local.inMem == states[h].local.inMem;
    if info in Snapshot(states[h + 1].local, labels[h].node) {
      Reachable(c, states, labels, h);
      var n :| n in states[h].local.inMem && states[h].local.inMem[n] == info;
      assert InfoOk(c, n, info);
      var i := CachedWasAccepted(c, states, labels, h, info);
    }
    if i :| 0 <= i < h && AcceptedAt(states, labels, i, info) && UnobservedBetween(states, labels, i, h, info.name) {
      AcceptedStays(c, states, labels, i, h, info);
    }
  }

  // ---- which binds are accepted ----------------------------------------------------------------

  function Greetings(labels: seq<Label>, source: string, epoch: string): seq<bool> {
    seq(|labels|, i requires 0 <= i < |labels| =>
      labels[i].LHandshake? && labels[i].source == source && labels[i].epoch == epoch)
  }

  function Ungreeted(labels: seq<Label>, source: string): seq<bool> {
    seq(|labels|, i requires 0 <= i < |labels| => !(labels[i].LHandshake? && labels[i].source == source))
  }

  /** The latest handshake of the source was under this epoch. */
  ghost predicate CurrentEpoch(labels: seq<Label>, t: nat, source: string, epoch: string)
    requires t <= |labels|
  {
    exists i: nat :: Since(Greetings(labels, source, epoch), Ungreeted(labels, source), i, t)
  }

  lemma EpochStep(c: Cluster, s: State, l: Label, source: string, epoch: string)
    requires Enabled(c, s, l)
    ensures Lookup(Apply(c, s, l).local.epochs, source) == Some(epoch) <==>
            || (Lookup(s.local.epochs, source) == Some(epoch) && !(l.LHandshake? && l.source == source))
            || (l.LHandshake? && l.source == source && l.epoch == epoch)
  {
    if !(l.LHandshake? && l.source == source) { EpochsKept(c, s, l, source); }
  }

  /** The epoch in force for a source is that of its latest handshake. */
  lemma EpochIffHandshake(c: Cluster, states: seq<State>, labels: seq<Label>, t: nat, source: string, epoch: string)
    requires IsRun(c, states, labels) && t < |states|
    ensures Lookup(states[t].local.epochs, source) == Some(epoch) <==> CurrentEpoch(labels, t, source, epoch)
  {
    var holds := seq(|states|, i requires 0 <= i < |states| => Lookup(states[i].local.epochs, source) == Some(epoch));
    var cause, keep := Greetings(labels, source, epoch), Ungreeted(labels, source);
    forall i: nat | i < |labels| ensures holds[i + 1] <==> (holds[i] && keep[i]) || cause[i] {
      assert StepAt(c, states, labels, i);
      EpochStep(c, states[i], labels[i], source, epoch);
    }
    HoldsIffCaused(holds, cause, keep, t);
  }

  /** A pod of this name was accepted, and its API object has had no event handled since. */
  ghost predicate AcceptedAndUnobserved(states: seq<State>, labels: seq<Label>, t: nat, n: string)
    requires |states| == |labels| + 1
  {
    exists i: nat, info: PodInfo :: i < t && info.name == n && AcceptedAt(states, labels, i, info)
                                    && UnobservedBetween(states, labels, i, t, n)
  }

  lemma CachedIffAccepted(c: Cluster, states: seq<State>, labels: seq<Label>, t: nat, n: string)
    requires IsRun(c, states, labels) && t < |states|
    ensures n in states[t].local.inMem <==> AcceptedAndUnobserved(states, labels, t, n)
  {
    if n in states[t].local.inMem {
      Reachable(c, states, labels, t);
      var info := states[t].local.inMem[n];
      assert InfoOk(c, n, info);
      var i := CachedWasAccepted(c, states, labels, t, info);
    }
    if i: nat, info: PodInfo :| i < t && info.name == n && AcceptedAt(states, labels, i, info)
                                && UnobservedBetween(states, labels, i, t, n) {
      AcceptedStays(c, states, labels, i, t, info);
    }
  }

  /** One bind: its reply and the whole new state. */
  lemma BindDoes(l: Local, templates: set<Owner>, source: string, epoch: string, info: PodInfo)
    ensures var reply := BindReplyFor(l, templates, source, epoch, info);
      var l' := BindPod(l, templates, source, epoch, info);
      if Owner(info.ns, info.owner) !in templates then reply == TemplateMissing && l' == l
      else if Lookup(l.epochs, source) != Some(epoch) then reply == EpochMismatch && l' == l
      else if info.name in l.inMem then reply == Duplicate && l' == l
      else
        && reply == Accepted
        && l' == l.(inMem := l.inMem[info.name := info], queue := l.queue + {PodKey(info.ns, info.name)})
  {
  }

  /**
   Over runs: a bind whose template is visible, whose epoch is that of its source's latest handshake, and whose
   name has no accepted and unobserved bind is cached and queued. Every other bind changes nothing, and its
   reply tells which of the three was missing first.
   */
  lemma BindAcceptedIff(c: Cluster, states: seq<State>, labels: seq<Label>, i: nat)
    requires IsRun(c, states, labels) && i < |labels| && labels[i].LBindPod?
    ensures var s, s', l := states[i], states[i + 1], labels[i];
      var reply := BindReplyFor(s.local, s.templates, l.source, l.epoch, l.info);
      if Owner(l.info.ns, l.info.owner) !in s.templates then reply == TemplateMissing && s' == s
      else if !CurrentEpoch(labels, i, l.source, l.epoch) then reply == EpochMismatch && s' == s
      else if AcceptedAndUnobserved(states, labels, i, l.info.name) then reply == Duplicate && s' == s
      else
        && reply == Accepted && Lookup(s'.local.inMem, l.info.name) == Some(l.info)
        && PodKey(l.info.ns, l.info.name) in s'.local.queue
  {
    var s, l := states[i], labels[i];
    EpochIffHandshake(c, states, labels, i, l.source, l.epoch);
    CachedIffAccepted(c, states, labels, i, l.info.name);
    BindDoes(s.local, s.templates, l.source, l.epoch, l.info);
    assert StepAt(c, states, labels, i);
  }

  // ---- exposing twice --------------------------------------------------------------------------

  /** The step starts an expose goroutine for `k`. */
  predicate ExposeStarts(s: State, s': State, k: PodKey) {
    exists p | p in s'.exposing :: KeyOf(p) == k && s'.exposing == s.exposing + multiset{p}
  }

  /** Step `m` sees an API object of `k`: a handler runs for its deletion, or a sync finds it in the informer store. */
  predicate ApiSeenAt(states: seq<State>, labels: seq<Label>, m: nat, k: PodKey)
    requires |states| == |labels| + 1
  {
    && m < |labels|
    && (|| (labels[m].LHandle? && |states[m].events| > 0 && IsDrop(states[m].events[0], k))
        || (labels[m].LSync? && labels[m].key == k && k in states[m].store))
  }

  lemma SyncKeepsTimer(c: Cluster, s: State, k: PodKey, o: Outcome)
    requires k in s.local.timers && k !in s.store
    ensures k in SyncStep(c, s, k, o).local.timers
  {
    if k.name in s.local.inMem {
      var p := AsPersistentPod(s.local.inMem[k.name]);
      WaitingSummary(c.cfg, s.local.(queue := s.local.queue - {k}), k, p, true, s.now, o);
    }
  }

  /** A timer disappears only when a handler runs for the deletion of its pod, or a sync finds the API object. */
  lemma TimerDropped(c: Cluster, s: State, l: Label, k: PodKey)
    requires Names(c, s) && Enabled(c, s, l) && k in s.local.timers && k !in Apply(c, s, l).local.timers
    ensures (l.LHandle? && IsDrop(s.events[0], k)) || (l.LSync? && l.key == k && k in s.store)
  {
    if l.LHandle? {
      assert EventOk(c, s.events[0]);
      HandlerDropsTimer(c, s.local, s.events[0], k);
    } else if l.LSync? {
      EffectKeepsLocal(c, s, l);
      if l.key == k && k !in s.store {
        SyncKeepsTimer(c, s, k, l.o);
      }
      SyncSummary(c, s, l.key, l.o);
      assert l.key != k ==> Lookup(SyncStep(c, s, l.key, l.o).local.timers, k) == Lookup(s.local.timers, k);
    }
  }

  lemma TimerDroppedAt(c: Cluster, states: seq<State>, labels: seq<Label>, m: nat, k: PodKey)
    requires IsRun(c, states, labels) && m < |labels|
    requires k in states[m].local.timers && k !in states[m + 1].local.timers
    ensures ApiSeenAt(states, labels, m, k)
  {
    Reachable(c, states, labels, m);
    assert StepAt(c, states, labels, m);
    TimerDropped(c, states[m], labels[m], k);
  }

  lemma {:induction false} TimerGone(c: Cluster, states: seq<State>, labels: seq<Label>, i: nat, j: nat, k: PodKey)
    returns (m: nat)
    requires IsRun(c, states, labels) && i <= j < |states|
    requires k in states[i].local.timers && k !in states[j].local.timers
    ensures i <= m < j && ApiSeenAt(states, labels, m, k)
  {
    if k in states[j - 1].local.timers {
      m := j - 1;
      TimerDroppedAt(c, states, labels, m, k);
    } else {
      m := TimerGone(c, states, labels, i, j - 1, k);
    }
  }

  lemma ExposeStart(c: Cluster, s: State, k: PodKey, o: Outcome)
    requires Names(c, s) && k in s.local.queue && SyncStep(c, s, k, o).effect.Expose?
    ensures var r := SyncStep(c, s, k, o);
      KeyOf(r.effect.pod) == k && k !in s.local.timers && k in r.local.timers && k !in s.store
  {
    SyncSummary(c, s, k, o);
    var p := AsPersistentPod(s.local.inMem[k.name]);
    assert InfoOk(c, k.name, s.local.inMem[k.name]) && KeyOk(c, k);
    WaitingSummary(c.cfg, s.local.(queue := s.local.queue - {k}), k, p, true, s.now, o);
  }

  lemma ExposeTurnsTimerOn(c: Cluster, s: State, l: Label)
    requires Inv(c, s) && Enabled(c, s, l) && l.LSync? && SyncStep(c, s, l.key, l.o).effect.Expose?
    ensures KeyOf(SyncStep(c, s, l.key, l.o).effect.pod) == l.key
    ensures l.key !in s.local.timers && l.key in Apply(c, s, l).local.timers
  {
    ExposeStart(c, s, l.key, l.o);
    EffectKeepsLocal(c, s, l);
  }

  /** A pod is exposed a second time only after its API object was seen in between. */
  lemma SecondExposeAfterApiSeen(c: Cluster, states: seq<State>, labels: seq<Label>, i: nat, j: nat, k: PodKey)
    returns (m: nat)
    requires IsRun(c, states, labels) && i < j < |labels|
    requires ExposeStarts(states[i], states[i + 1], k) && ExposeStarts(states[j], states[j + 1], k)
    ensures i < m < j && ApiSeenAt(states, labels, m, k)
  {
    TimerOffThenOn(c, states, labels, i, k);
    TimerOffThenOn(c, states, labels, j, k);
    m := TimerGone(c, states, labels, i + 1, j, k);
  }

  lemma TimerOffThenOn(c: Cluster, states: seq<State>, labels: seq<Label>, i: nat, k: PodKey)
    requires IsRun(c, states, labels) && i < |labels| && ExposeStarts(states[i], states[i + 1], k)
    ensures k !in states[i].local.timers && k in states[i + 1].local.timers
  {
    Reachable(c, states, labels, i);
    assert StepAt(c, states, labels, i);
    OnlySyncsExpose(c, states[i], states[i + 1], labels[i], k);
    ExposeTurnsTimerOn(c, states[i], labels[i]);
  }

  lemma OtherStepsDoNotExpose(c: Cluster, s: State, l: Label)
    requires Enabled(c, s, l) && !l.LSync?
    ensures Apply(c, s, l).exposing <= s.exposing
  {
  }

  lemma EffectExposes(c: Cluster, s: State, r: SyncResult, applied: bool)
    requires EffectPossible(c, s, r, applied)
    ensures ApplyEffect(c, s, r, applied).exposing ==
            s.exposing + (if r.effect.Expose? then multiset{r.effect.pod} else multiset{})
  {
  }

  lemma SameAddition(a: multiset<Pod>, p: Pod, b: multiset<Pod>)
    requires a + multiset{p} == a + b
    ensures b == multiset{p}
  {
    assert b == (a + b) - a && multiset{p} == (a + multiset{p}) - a;
  }

  /** Exposes are started by syncs alone, for the pod that the sync resolves to. */
  lemma OnlySyncsExpose(c: Cluster, s: State, s': State, l: Label, k: PodKey)
    requires Enabled(c, s, l) && s' == Apply(c, s, l) && ExposeStarts(s, s', k)
    ensures l.LSync? && SyncStep(c, s, l.key, l.o).effect.Expose? && KeyOf(SyncStep(c, s, l.key, l.o).effect.pod) == k
  {
    var p :| p in s'.exposing && KeyOf(p) == k && s'.exposing == s.exposing + multiset{p};
    if l.LSync? {
      var r := SyncStep(c, s, l.key, l.o);
      EffectExposes(c, s, r, l.applied);
      SameAddition(s.exposing, p, if r.effect.Expose? then multiset{r.effect.pod} else multiset{});
      assert r.effect.Expose? ==> r.effect.pod in multiset{p};
      assert p in multiset{p};
    } else {
      assert (s.exposing + multiset{p})[p] == s.exposing[p] + 1;
      OtherStepsDoNotExpose(c, s, l);
    }
  }

  // ---- readiness is never early ----------------------------------------------------------------

  predicate MarksReadyAt(c: Cluster, states: seq<State>, labels: seq<Label>, j: nat, k: PodKey)
    requires |states| == |labels| + 1
  {
    && j < |labels| && labels[j].LSync? && labels[j].key == k
    && SyncStep(c, states[j], k, labels[j].o).effect.MarkReady?
  }

  /** Step `i` is the sync of `k` that started the timer still running in state `j`. */
  predicate TimerStartedAt(c: Cluster, states: seq<State>, labels: seq<Label>, i: nat, k: PodKey, due: Time)
    requires |states| == |labels| + 1
  {
    && i < |labels| && labels[i].LSync? && labels[i].key == k
    && k !in states[i].local.timers && Lookup(states[i + 1].local.timers, k) == Some(due)
    && due == states[i].now + c.cfg.readyDelay
  }

  lemma ResolvedTimer(cfg: Config, l: Local, nodes: map<string, string>, k: PodKey, p: Pod, isInMem: bool, now: Time,
      o: Outcome)
    ensures var r := SyncResolved(cfg, l, nodes, k, p, isInMem, now, o);
      k in r.local.timers ==> r.local.timers[k] == if k in l.timers then l.timers[k] else now + cfg.readyDelay
  {
  }

  lemma SyncTimer(c: Cluster, s: State, k: PodKey, o: Outcome)
    ensures var r := SyncStep(c, s, k, o);
      k in r.local.timers ==>
        r.local.timers[k] == if k in s.local.timers then s.local.timers[k] else s.now + c.cfg.readyDelay
  {
    var l := s.local.(queue := s.local.queue - {k});
    if k in s.store {
      ResolvedTimer(c.cfg, l, s.nodes, k, s.store[k], false, s.now, o);
    } else if k.name in s.local.inMem {
      ResolvedTimer(c.cfg, l, s.nodes, k, AsPersistentPod(s.local.inMem[k.name]), true, s.now, o);
    }
  }

  lemma TimerValueStep(c: Cluster, s: State, l: Label, k: PodKey)
    requires Enabled(c, s, l) && k in Apply(c, s, l).local.timers
    ensures var due := Apply(c, s, l).local.timers[k];
      || Lookup(s.local.timers, k) == Some(due)
      || (l.LSync? && l.key == k && k !in s.local.timers && due == s.now + c.cfg.readyDelay)
  {
    if l.LSync? {
      EffectKeepsLocal(c, s, l);
      SyncTimer(c, s, l.key, l.o);
      SyncSummary(c, s, l.key, l.o);
      assert l.key != k ==> Lookup(SyncStep(c, s, l.key, l.o).local.timers, k) == Lookup(s.local.timers, k);
    }
  }

  /** The timer of `k` has run without interruption since step `i` started it, until state `j`. */
  ghost predicate RanBetween(states: seq<State>, i: nat, j: nat, k: PodKey, due: Time)
    requires j < |states|
  {
    forall m | i < m <= j :: Lookup(states[m].local.timers, k) == Some(due)
  }

  lemma {:induction false} TimerHasStart(c: Cluster, states: seq<State>, labels: seq<Label>, j: nat, k: PodKey)
    returns (i: nat)
    requires IsRun(c, states, labels) && j < |states| && k in states[j].local.timers
    ensures i < j && TimerStartedAt(c, states, labels, i, k, states[j].local.timers[k])
    ensures RanBetween(states, i, j, k, states[j].local.timers[k])
  {
    assert StepAt(c, states, labels, j - 1);
    TimerValueStep(c, states[j - 1], labels[j - 1], k);
    if k in states[j - 1].local.timers {
      i := TimerHasStart(c, states, labels, j - 1, k);
    } else {
      i := j - 1;
    }
  }

  /** What must hold of a sync that writes the ready status. */
  lemma MarkReadyMeans(c: Cluster, s: State, k: PodKey, o: Outcome)
    requires SyncStep(c, s, k, o).effect.MarkReady?
    ensures var r := SyncStep(c, s, k, o);
      && k in s.store && r.effect.pod == s.store[k]
      && IsPodActive(s.store[k]) && !s.store[k].ready && Here(c.cfg.self, s.nodes, s.store[k].node)
      && k in r.local.timers && r.local.timers[k] <= s.now
      && (k in s.local.timers ==> r.local.timers[k] == s.local.timers[k])
      && (k !in s.local.timers ==> r.local.timers[k] == s.now + c.cfg.readyDelay)
  {
    SyncSummary(c, s, k, o);
  }

  /** The reference pod matters exactly when not simulating: then a sync without one writes no status and is retried. */
  lemma ReferenceNeededUnlessSimulating(c: Cluster, s: State, k: PodKey, o: Outcome)
    ensures c.cfg.simulate ==> SyncStep(c, s, k, o) == SyncStep(c, s, k, o.(refStatusFails := !o.refStatusFails))
    ensures !c.cfg.simulate && o.refStatusFails && SyncStep(c, s, k, o.(refStatusFails := false)).effect.MarkReady? ==>
              var r := SyncStep(c, s, k, o); r.effect == NoEffect && !r.ok && k in r.local.delayed
  {
  }

  /**
   A ready status is written only for an API pod taken from the informer, and only when its timer is due:
   the sync `i` of the same key that started this timer (possibly the writing sync itself) was at least
   `readyDelay` earlier, and the timer has run without interruption since.
   */
  lemma ReadyIsNeverEarly(c: Cluster, states: seq<State>, labels: seq<Label>, j: nat, k: PodKey) returns (i: nat)
    requires IsRun(c, states, labels) && MarksReadyAt(c, states, labels, j, k)
    ensures k in states[j].store && SyncStep(c, states[j], k, labels[j].o).effect.pod == states[j].store[k]
    ensures i <= j && labels[i].LSync? && labels[i].key == k && k !in states[i].local.timers
    ensures Lookup(SyncStep(c, states[i], k, labels[i].o).local.timers, k) == Some(states[i].now + c.cfg.readyDelay)
    ensures RanBetween(states, i, j, k, states[i].now + c.cfg.readyDelay)
    ensures states[i].now + c.cfg.readyDelay <= states[j].now
  {
    MarkReadyMeans(c, states[j], k, labels[j].o);
    if k in states[j].local.timers {
      i := TimerHasStart(c, states, labels, j, k);
      assert StepAt(c, states, labels, i);
      EffectKeepsLocal(c, states[i], labels[i]);
    } else {
      i := j;
    }
  }
}
