/**
 What every reachable state of the kubelet keeps: objects and names agree, and the informer
 log leads from the store to the API. Also what a single sync and a single handler may do.
 */
module KubeletInvariants {
  import opened Common
  import opened Kubelet
  import opened KubeletSystem

  // ---- names -----------------------------------------------------------------------------------

  predicate PodOk(c: Cluster, k: PodKey, p: Pod) { KeyOf(p) == k && Admissible(c, p) }

  predicate EventOk(c: Cluster, e: Event) {
    && (e.before.Some? ==> PodOk(c, e.key, e.before.value))
    && (e.after.Some? ==> PodOk(c, e.key, e.after.value))
    && (e.after.None? ==> e.before.Some?)
  }

  predicate InfoOk(c: Cluster, n: string, i: PodInfo) { i.name == n && n in c.home && c.home[n] == i.ns }

  predicate ObjectsOk(c: Cluster, m: map<PodKey, Pod>) { forall k | k in m :: PodOk(c, k, m[k]) }

  predicate Names(c: Cluster, s: State) {
    && (forall n | n in s.local.inMem :: InfoOk(c, n, s.local.inMem[n]))
    && (forall k | k in s.local.queue :: KeyOk(c, k))
    && (forall k | k in s.local.delayed :: KeyOk(c, k))
    && ObjectsOk(c, s.api)
    && ObjectsOk(c, s.store)
    && (forall p | p in s.exposing :: p.name in c.home && Admissible(c, p))
    && (forall e | e in s.events :: EventOk(c, e))
  }

  lemma NamesWrite(c: Cluster, s: State, k: PodKey, after: Option<Pod>)
    requires Names(c, s)
    requires after.Some? ==> PodOk(c, k, after.value)
    requires after.None? ==> k in s.api
    ensures Names(c, WriteApi(s, k, after))
  {
  }

  /** A bind that has everything it takes: a visible template, its source's epoch, and a name not yet cached. */
  predicate Acceptable(s: State, l: Label) {
    && l.LBindPod? && Owner(l.info.ns, l.info.owner) in s.templates
    && Lookup(s.local.epochs, l.source) == Some(l.epoch) && l.info.name !in s.local.inMem
  }

  // ---- what one sync may do --------------------------------------------------------------------

  /** How a sync of `k` may change the kubelet's state. */
  ghost predicate LocalFacts(l: Local, k: PodKey, r: SyncResult) {
    && r.local.inMem == l.inMem && r.local.epochs == l.epochs && r.local.clients == l.clients
    && r.local.queue == l.queue
    && l.delayed <= r.local.delayed <= l.delayed + {k}
    && (forall j | j != k :: Lookup(r.local.timers, j) == Lookup(l.timers, j))
  }

  lemma WaitingSummary(cfg: Config, l: Local, k: PodKey, p: Pod, isInMem: bool, now: Time, o: Outcome)
    ensures var r := SyncWaiting(cfg, l, k, p, isInMem, now, o);
      && LocalFacts(l, k, r)
      && k in r.local.timers
      && (isInMem || !r.ok || r.effect.MarkReady? || k in r.local.delayed)
      && (if isInMem && k !in l.timers then r.effect == Expose(p)
          else if isInMem then r.effect == NoEffect
          else r.effect == NoEffect || r.effect == MarkReady(p))
      && (isInMem ==> r.ok)
  {
  }

  lemma ResolvedSummary(cfg: Config, l: Local, nodes: map<string, string>,
                        k: PodKey, p: Pod, isInMem: bool, now: Time, o: Outcome)
    requires isInMem ==> IsPodActive(p) && !p.ready
    ensures var r := SyncResolved(cfg, l, nodes, k, p, isInMem, now, o);
      && LocalFacts(l, k, r)
      && (r.effect.Expose? ==> isInMem && r.effect.pod == p && p.node != "" && k !in l.timers)
      && (r.effect.RequestDelete? ==> !isInMem && r.effect.key == KeyOf(p))
      && (r.effect.MarkReady? ==> !isInMem && r.effect.pod == p)
      && (k in r.local.timers ==> k in l.timers || r.effect.Expose? || !isInMem)
  {
    WaitingSummary(cfg, l, k, p, isInMem, now, o);
  }

  /** The parts of a sync's result that the invariants depend on. */
  ghost predicate SyncFacts(c: Cluster, s: State, k: PodKey, r: SyncResult) {
    && r.local.inMem == s.local.inMem && r.local.epochs == s.local.epochs && r.local.clients == s.local.clients
    && r.local.queue == s.local.queue - {k}
    && s.local.delayed <= r.local.delayed <= s.local.delayed + {k}
    && (r.ok || k in r.local.delayed)
    && (forall j | j != k :: Lookup(r.local.timers, j) == Lookup(s.local.timers, j))
    && (r.effect.Expose? ==>
          && k !in s.store && k.name in s.local.inMem && r.effect.pod == AsPersistentPod(s.local.inMem[k.name])
          && r.effect.pod.node != "" && k !in s.local.timers)
    && (r.effect.RequestDelete? ==> k in s.store && r.effect.key == KeyOf(s.store[k]))
    && (r.effect.MarkReady? ==> k in s.store && r.effect.pod == s.store[k])
    && (k in r.local.timers ==> k in s.local.timers || r.effect.Expose? || k in s.store)
  }

  lemma SyncSummary(c: Cluster, s: State, k: PodKey, o: Outcome)
    ensures SyncFacts(c, s, k, SyncStep(c, s, k, o))
  {
    var l := s.local.(queue := s.local.queue - {k});
    if k in s.store {
      ResolvedSummary(c.cfg, l, s.nodes, k, s.store[k], false, s.now, o);
    } else if k.name in s.local.inMem {
      ResolvedSummary(c.cfg, l, s.nodes, k, AsPersistentPod(s.local.inMem[k.name]), true, s.now, o);
    }
  }

  /** API writes and new exposes do not touch the kubelet's own state. */
  lemma EffectKeepsLocal(c: Cluster, s: State, l: Label)
    requires Enabled(c, s, l) && l.LSync?
    ensures Apply(c, s, l).local == SyncStep(c, s, l.key, l.o).local
  {
  }

  lemma NamesSync(c: Cluster, s: State, k: PodKey, r: SyncResult, applied: bool)
    requires Names(c, s) && SyncFacts(c, s, k, r) && EffectPossible(c, s, r, applied) && k in s.local.queue
    ensures Names(c, ApplyEffect(c, s, r, applied))
  {
    var s1 := s.(local := r.local);
    assert Names(c, s1);
    match r.effect
    case NoEffect =>
    case Expose(p) => assert InfoOk(c, k.name, s.local.inMem[k.name]);
    case RequestDelete(d) =>
      if applied && d in s.api { NamesWrite(c, s1, d, None); }
    case MarkReady(p) =>
      if applied {
        var q := s.api[KeyOf(p)];
        assert PodOk(c, KeyOf(p), q);
        NamesWrite(c, s1, KeyOf(p), Some(q.(ready := true, terminated := false)));
      }
  }

  lemma NamesExpose(c: Cluster, s: State, p: Pod, outcome: ExposeOutcome)
    requires Names(c, s) && Enabled(c, s, LExpose(p, outcome))
    ensures Names(c, ExposeStep(s, p, outcome))
  {
    if outcome.Created? || outcome.CreatedReplyLost? {
      NamesWrite(c, s, KeyOf(p), Some(p.(uid := s.nextUid)));
    }
  }

  lemma NamesLocal(c: Cluster, s: State, l: Label)
    requires Names(c, s) && Enabled(c, s, l) && (l.LHandshake? || l.LBindPod? || l.LRequeue? || l.LNodeDeleted?)
    ensures Names(c, Apply(c, s, l))
  {
  }

  lemma NamesDeliver(c: Cluster, s: State)
    requires Names(c, s) && Enabled(c, s, LDeliver)
    ensures Names(c, Apply(c, s, LDeliver))
  {
    assert EventOk(c, s.events[s.delivered]);
  }

  lemma NamesHandle(c: Cluster, s: State)
    requires Names(c, s) && Enabled(c, s, LHandle)
    ensures Names(c, Apply(c, s, LHandle))
  {
    assert EventOk(c, s.events[0]);
  }

  lemma NamesStep(c: Cluster, s: State, l: Label)
    requires Names(c, s) && Enabled(c, s, l)
    ensures Names(c, Apply(c, s, l))
  {
    match l
    case LApiCreate(p) => NamesWrite(c, s, KeyOf(p), Some(p.(uid := s.nextUid)));
    case LApiUpdate(p) => NamesWrite(c, s, KeyOf(p), Some(p));
    case LApiRemove(k) => NamesWrite(c, s, k, None);
    case LExpose(p, outcome) => NamesExpose(c, s, p, outcome);
    case LSync(k, o, applied) =>
      SyncSummary(c, s, k, o);
      NamesSync(c, s, k, SyncStep(c, s, k, o), applied);
    case LHandshake(_, _, _) => NamesLocal(c, s, l);
    case LBindPod(_, _, _) => NamesLocal(c, s, l);
    case LRequeue(_) => NamesLocal(c, s, l);
    case LDeliver => NamesDeliver(c, s);
    case LHandle => NamesHandle(c, s);
    case LTick(_) =>
    case LTemplateAdded(_) =>
    case LTemplateRemoved(_) =>
    case LNodesChanged(_) =>
    case LNodeDeleted(_) => NamesLocal(c, s, l);
  }

  // ---- what one event handler may do -----------------------------------------------------------

  /** The handler of another pod's event leaves the record and the queueing of a pod alone. */
  lemma HandlerOfOther(c: Cluster, l: Local, e: Event, info: PodInfo)
    requires EventOk(c, e) && InfoOk(c, info.name, info) && e.key != InfoKey(info)
    ensures var l' := HandleNotice(l, Filtered(e));
      && Lookup(l'.inMem, info.name) == Lookup(l.inMem, info.name)
      && (InfoKey(info) in l'.queue <==> InfoKey(info) in l.queue) && l'.delayed == l.delayed
  {
  }

  /** The handler of the pod's own event drops its record, or finds nothing to do. */
  lemma HandlerOfSelf(c: Cluster, l: Local, e: Event, info: PodInfo)
    requires EventOk(c, e) && InfoOk(c, info.name, info) && e.key == InfoKey(info)
    ensures info.name !in HandleNotice(l, Filtered(e)).inMem
  {
  }

  lemma HandlerOnlyDrops(l: Local, e: Event)
    ensures var l' := HandleNotice(l, Filtered(e));
      forall n | n in l'.inMem :: n in l.inMem && l'.inMem[n] == l.inMem[n]
  {
  }

  /** A handler removes a timer exactly for the deletion of its pod. */
  lemma HandlerDropsTimer(c: Cluster, l: Local, e: Event, k: PodKey)
    requires EventOk(c, e)
    ensures Lookup(HandleNotice(l, Filtered(e)).timers, k) == if IsDrop(e, k) then None else Lookup(l.timers, k)
  {
  }

  // ---- the informer log ------------------------------------------------------------------------

  predicate Mentions(events: seq<Event>, from: nat, k: PodKey) {
    exists j | from <= j < |events| :: events[j].key == k
  }

  /** The handler will treat this event as the deletion of `k`. */
  predicate IsDrop(e: Event, k: PodKey) { e.key == k && Filtered(e).Notice? && Filtered(e).isDelete }

  /** The API holds an object of `k` that the handlers see, or they have still to see it go. */
  predicate Visible(s: State, from: nat, k: PodKey) {
    || (k in s.api && EnqueueFilter(s.api[k]))
    || exists j | from <= j < |s.events| :: IsDrop(s.events[j], k)
  }

  predicate Passes(p: Option<Pod>) { p.Some? && EnqueueFilter(p.value) }

  /** The log leads from the store to the API: the last change of a key is its current object. */
  ghost predicate Log(s: State) {
    && s.delivered <= |s.events|
    && (forall i | 0 <= i < |s.events| && !Mentions(s.events, i + 1, s.events[i].key) ::
          s.events[i].after == Lookup(s.api, s.events[i].key))
    && (forall k :: Mentions(s.events, s.delivered, k) || Lookup(s.store, k) == Lookup(s.api, k))
    && (forall i | 0 <= i < |s.events| && Passes(s.events[i].after) :: Visible(s, i + 1, s.events[i].key))
    && (forall k | Passes(Lookup(s.store, k)) :: Visible(s, s.delivered, k))
  }

  lemma VisibleWrite(s: State, k: PodKey, after: Option<Pod>, from: nat, j: PodKey)
    requires Visible(s, from, j) && from <= |s.events|
    ensures Visible(WriteApi(s, k, after), from, j)
  {
    var s' := WriteApi(s, k, after);
    if j in s.api && EnqueueFilter(s.api[j]) {
      assert k == j && !Passes(after) ==> IsDrop(s'.events[|s.events|], j);
    } else {
      var i :| from <= i < |s.events| && IsDrop(s.events[i], j);
      assert IsDrop(s'.events[i], j);
    }
  }

  lemma MentionsWrite(s: State, k: PodKey, after: Option<Pod>, from: nat, j: PodKey)
    requires from <= |s.events|
    ensures Mentions(WriteApi(s, k, after).events, from, j) <==> Mentions(s.events, from, j) || j == k
  {
    var s' := WriteApi(s, k, after);
    assert s'.events[|s.events|].key == k;
    if Mentions(s.events, from, j) {
      var i :| from <= i < |s.events| && s.events[i].key == j;
      assert s'.events[i].key == j;
    }
  }

  lemma LogWrite(s: State, k: PodKey, after: Option<Pod>)
    requires Log(s)
    ensures Log(WriteApi(s, k, after))
  {
    var s' := WriteApi(s, k, after);
    var n := |s.events|;
    forall i | 0 <= i < |s'.events| && !Mentions(s'.events, i + 1, s'.events[i].key)
      ensures s'.events[i].after == Lookup(s'.api, s'.events[i].key)
    {
      if i < n { MentionsWrite(s, k, after, i + 1, s.events[i].key); }
    }
    forall j ensures Mentions(s'.events, s'.delivered, j) || Lookup(s'.store, j) == Lookup(s'.api, j) {
      MentionsWrite(s, k, after, s.delivered, j);
    }
    forall i | 0 <= i < |s'.events| && Passes(s'.events[i].after) ensures Visible(s', i + 1, s'.events[i].key) {
      if i < n { VisibleWrite(s, k, after, i + 1, s.events[i].key); }
    }
    forall j | Passes(Lookup(s'.store, j)) ensures Visible(s', s'.delivered, j) {
      VisibleWrite(s, k, after, s.delivered, j);
    }
  }

  lemma LogDeliver(c: Cluster, s: State)
    requires Log(s) && s.delivered < |s.events|
    ensures Log(Apply(c, s, LDeliver))
  {
    var s' := Apply(c, s, LDeliver);
    forall i | 0 <= i < |s'.events| && Passes(s'.events[i].after) ensures Visible(s', i + 1, s'.events[i].key) {
      assert Visible(s, i + 1, s.events[i].key);
    }
    forall k ensures Mentions(s'.events, s'.delivered, k) || Lookup(s'.store, k) == Lookup(s'.api, k)
             ensures Passes(Lookup(s'.store, k)) ==> Visible(s', s'.delivered, k)
    {
      DeliveredKey(s, s', k);
    }
  }

  lemma DeliveredKey(s: State, s': State, k: PodKey)
    requires Log(s) && s.delivered < |s.events|
    requires var e := s.events[s.delivered];
      s' == s.(store := Store(s.store, e.key, e.after), delivered := s.delivered + 1)
    ensures
      && (Mentions(s'.events, s'.delivered, k) || Lookup(s'.store, k) == Lookup(s'.api, k))
      && (Passes(Lookup(s'.store, k)) ==> Visible(s', s'.delivered, k))
  {
    VisibleSame(s, s', s'.delivered, k);
    if k == s.events[s.delivered].key {
      DeliveredOwn(s, s.delivered);
    } else {
      DeliveredOther(s, k);
    }
  }

  lemma VisibleSame(s: State, s': State, from: nat, k: PodKey)
    requires s'.api == s.api && s'.events == s.events
    ensures Visible(s', from, k) <==> Visible(s, from, k)
  {
  }

  /** What the log says of its event `i`. */
  lemma DeliveredOwn(s: State, i: nat)
    requires Log(s) && i < |s.events|
    ensures var e := s.events[i];
      && (Mentions(s.events, i + 1, e.key) || e.after == Lookup(s.api, e.key))
      && (Passes(e.after) ==> Visible(s, i + 1, e.key))
  {
  }

  /** What it says of a key that the next event to be delivered is not about. */
  lemma DeliveredOther(s: State, k: PodKey)
    requires Log(s) && s.delivered < |s.events| && s.events[s.delivered].key != k
    ensures Mentions(s.events, s.delivered + 1, k) || Lookup(s.store, k) == Lookup(s.api, k)
    ensures Passes(Lookup(s.store, k)) ==> Visible(s, s.delivered + 1, k)
  {
    assert Mentions(s.events, s.delivered, k) ==> Mentions(s.events, s.delivered + 1, k);
    if Passes(Lookup(s.store, k)) { VisibleSkip(s, s.delivered, k); }
  }

  /** An event of another key is no witness for `k`. */
  lemma VisibleSkip(s: State, from: nat, k: PodKey)
    requires Visible(s, from, k) && from < |s.events| && !IsDrop(s.events[from], k)
    ensures Visible(s, from + 1, k)
  {
  }

  lemma VisibleShift(c: Cluster, s: State, from: nat, k: PodKey)
    requires Enabled(c, s, LHandle) && 0 < from && Visible(s, from, k)
    ensures Visible(Apply(c, s, LHandle), from - 1, k)
  {
    if !(k in s.api && EnqueueFilter(s.api[k])) {
      var j :| from <= j < |s.events| && IsDrop(s.events[j], k);
      assert IsDrop(s.events[1..][j - 1], k);
    }
  }

  lemma MentionsShift(events: seq<Event>, from: nat, k: PodKey)
    requires 0 < |events| && 0 < from
    ensures Mentions(events[1..], from - 1, k) <==> Mentions(events, from, k)
  {
    var rest := events[1..];
    if Mentions(rest, from - 1, k) {
      var j :| from - 1 <= j < |rest| && rest[j].key == k;
      assert events[j + 1].key == k;
    }
    if Mentions(events, from, k) {
      var j :| from <= j < |events| && events[j].key == k;
      assert rest[j - 1].key == k;
    }
  }

  lemma LogHandle(c: Cluster, s: State)
    requires Log(s) && Enabled(c, s, LHandle)
    ensures Log(Apply(c, s, LHandle))
  {
    var s' := Apply(c, s, LHandle);
    forall i | 0 <= i < |s'.events| && !Mentions(s'.events, i + 1, s'.events[i].key)
      ensures s'.events[i].after == Lookup(s'.api, s'.events[i].key)
    {
      MentionsShift(s.events, i + 2, s.events[i + 1].key);
    }
    forall k ensures Mentions(s'.events, s'.delivered, k) || Lookup(s'.store, k) == Lookup(s'.api, k) {
      MentionsShift(s.events, s.delivered, k);
    }
    forall i | 0 <= i < |s'.events| && Passes(s'.events[i].after) ensures Visible(s', i + 1, s'.events[i].key) {
      VisibleShift(c, s, i + 2, s.events[i + 1].key);
    }
    forall k | Passes(Lookup(s'.store, k)) ensures Visible(s', s'.delivered, k) {
      VisibleShift(c, s, s.delivered, k);
    }
  }

  /** Only API writes, deliveries and handlers touch the log. */
  lemma LogFrame(s: State, s': State)
    requires Log(s)
    requires s'.api == s.api && s'.store == s.store && s'.events == s.events && s'.delivered == s.delivered
    ensures Log(s')
  {
    forall i | 0 <= i < |s.events| && Passes(s.events[i].after) ensures Visible(s', i + 1, s.events[i].key) {
      assert Visible(s, i + 1, s.events[i].key);
    }
    forall k | Passes(Lookup(s.store, k)) ensures Visible(s', s'.delivered, k) {
      assert Visible(s, s.delivered, k);
    }
  }

  lemma LogExpose(c: Cluster, s: State, p: Pod, outcome: ExposeOutcome)
    requires Log(s) && Enabled(c, s, LExpose(p, outcome))
    ensures Log(ExposeStep(s, p, outcome))
  {
    if outcome.Created? || outcome.CreatedReplyLost? {
      LogWrite(s, KeyOf(p), Some(p.(uid := s.nextUid)));
      LogFrame(WriteApi(s, KeyOf(p), Some(p.(uid := s.nextUid))), ExposeStep(s, p, outcome));
    } else {
      LogFrame(s, ExposeStep(s, p, outcome));
    }
  }

  lemma LogSync(c: Cluster, s: State, r: SyncResult, applied: bool)
    requires Log(s) && EffectPossible(c, s, r, applied)
    ensures Log(ApplyEffect(c, s, r, applied))
  {
    var s1 := s.(local := r.local);
    LogFrame(s, s1);
    match r.effect
    case NoEffect =>
    case Expose(p) => LogFrame(s1, ApplyEffect(c, s, r, applied));
    case RequestDelete(d) => if applied && d in s.api { LogWrite(s1, d, None); }
    case MarkReady(p) =>
      if applied { LogWrite(s1, KeyOf(p), Some(s.api[KeyOf(p)].(ready := true, terminated := false))); }
  }

  lemma LogStep(c: Cluster, s: State, l: Label)
    requires Log(s) && Enabled(c, s, l)
    ensures Log(Apply(c, s, l))
  {
    match l
    case LApiCreate(p) =>
      LogWrite(s, KeyOf(p), Some(p.(uid := s.nextUid)));
      LogFrame(WriteApi(s, KeyOf(p), Some(p.(uid := s.nextUid))), Apply(c, s, l));
    case LApiUpdate(p) => LogWrite(s, KeyOf(p), Some(p));
    case LApiRemove(k) => LogWrite(s, k, None);
    case LExpose(p, outcome) => LogExpose(c, s, p, outcome);
    case LSync(k, o, applied) => LogSync(c, s, SyncStep(c, s, k, o), applied);
    case LDeliver => LogDeliver(c, s);
    case LHandle => LogHandle(c, s);
    case _ => LogFrame(s, Apply(c, s, l));
  }
}
