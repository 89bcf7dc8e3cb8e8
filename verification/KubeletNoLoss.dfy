/**
 Ready timers are not left behind, and no pod is forgotten: the two safety properties of the
 reconciler over its two sources of truth, step by step. KubeletForgotten traces what does go
 wrong in a run back to the sync that caused it.
 */
module KubeletNoLoss {
  import opened Common
  import opened Kubelet
  import opened KubeletSystem
  import opened KubeletDecisions
  import opened KubeletInvariants

  // ---- timers ----------------------------------------------------------------------------------

  predicate Exposing(s: State, k: PodKey) { exists p | p in s.exposing :: KeyOf(p) == k }

  /** Somebody will still see to it that the timer of `k` is cleared. */
  predicate Anchored(s: State, k: PodKey) { Exposing(s, k) || Visible(s, 0, k) }

  predicate TimerOk(s: State, k: PodKey) { k in s.local.timers ==> Anchored(s, k) }

  /** A sync that starts a timer for an API pod; the sync does not look at the pod's lifecycle label. */
  predicate StartsApiTimer(c: Cluster, s: State, l: Label, k: PodKey) {
    && l.LSync? && l.key == k && k in s.store
    && k !in s.local.timers && k in SyncStep(c, s, k, l.o).local.timers
  }

  /** What to check before such a sync: handlers see an object of `k`, or its removal is still to come. */
  predicate TimerGuard(c: Cluster, s: State, l: Label, k: PodKey) {
    StartsApiTimer(c, s, l, k) ==> Anchored(s, k)
  }

  lemma ExposingFrame(s: State, s': State, k: PodKey)
    requires s.exposing <= s'.exposing
    ensures Exposing(s, k) ==> Exposing(s', k)
  {
    if Exposing(s, k) {
      var p :| p in s.exposing && KeyOf(p) == k;
      assert p in s'.exposing;
    }
  }

  lemma AnchoredWrite(s: State, k: PodKey, after: Option<Pod>, j: PodKey)
    requires Anchored(s, j)
    ensures Anchored(WriteApi(s, k, after), j)
  {
    ExposingFrame(s, WriteApi(s, k, after), j);
    if Visible(s, 0, j) { VisibleWrite(s, k, after, 0, j); }
  }

  lemma AnchoredFrame(s: State, s': State, k: PodKey)
    requires s'.api == s.api && s'.events == s.events && s.exposing <= s'.exposing
    ensures Anchored(s, k) ==> Anchored(s', k)
  {
    ExposingFrame(s, s', k);
  }

  /** Handling an event that is not the deletion of `k` leaves the key visible. */
  lemma VisibleAfterHandle(c: Cluster, s: State, s': State, k: PodKey)
    requires Names(c, s) && |s.events| > 0 && s'.api == s.api && s'.events == s.events[1..]
    requires Visible(s, 0, k) && !IsDrop(s.events[0], k)
    ensures Visible(s', 0, k)
  {
    if !(k in s.api && EnqueueFilter(s.api[k])) {
      var j :| 0 <= j < |s.events| && IsDrop(s.events[j], k);
      assert s'.events[j - 1] == s.events[j];
    }
  }

  lemma TimerHandle(c: Cluster, s: State, k: PodKey)
    requires Names(c, s) && TimerOk(s, k) && Enabled(c, s, LHandle)
    ensures TimerOk(Apply(c, s, LHandle), k)
  {
    var s' := Apply(c, s, LHandle);
    assert EventOk(c, s.events[0]);
    HandlerDropsTimer(c, s.local, s.events[0], k);
    ExposingFrame(s, s', k);
    if k in s'.local.timers && !Exposing(s, k) { VisibleAfterHandle(c, s, s', k); }
  }

  /** The expose of another pod keeps what `k` is anchored to. */
  lemma AnchoredExpose(s: State, p: Pod, outcome: ExposeOutcome, k: PodKey)
    requires p in s.exposing && KeyOf(p) != k && Anchored(s, k)
    ensures Anchored(ExposeStep(s, p, outcome), k)
  {
    var s' := ExposeStep(s, p, outcome);
    if Exposing(s, k) {
      var q :| q in s.exposing && KeyOf(q) == k;
      assert q in s'.exposing;
    } else if outcome.Created? || outcome.CreatedReplyLost? {
      VisibleWrite(s, KeyOf(p), Some(p.(uid := s.nextUid)), 0, k);
    }
  }

  lemma TimerExpose(c: Cluster, s: State, p: Pod, outcome: ExposeOutcome, k: PodKey)
    requires Names(c, s) && TimerOk(s, k) && Enabled(c, s, LExpose(p, outcome))
    ensures TimerOk(ExposeStep(s, p, outcome), k)
  {
    assert p.name in c.home && Admissible(c, p);
    if KeyOf(p) != k {
      if k in s.local.timers { AnchoredExpose(s, p, outcome, k); }
    } else if outcome.AlreadyExists? {
      assert PodOk(c, k, s.api[k]);
    }
  }

  /** The sync of `k` keeps its timer anchored exactly when the guard holds. */
  lemma TimerSync(c: Cluster, s: State, l: Label, k: PodKey)
    requires Names(c, s) && TimerOk(s, k) && Enabled(c, s, l) && l.LSync?
    ensures TimerOk(Apply(c, s, l), k) <==> TimerGuard(c, s, l, k)
  {
    var r := SyncStep(c, s, l.key, l.o);
    SyncSummary(c, s, l.key, l.o);
    EffectKeepsLocal(c, s, l);
    TimerEffect(c, s, l.key, r, l.applied, k);
    assert l.key != k ==> Lookup(r.local.timers, k) == Lookup(s.local.timers, k);
  }

  lemma TimerEffect(c: Cluster, s: State, key: PodKey, r: SyncResult, applied: bool, k: PodKey)
    requires Names(c, s) && key in s.local.queue && SyncFacts(c, s, key, r) && EffectPossible(c, s, r, applied)
    ensures Anchored(s, k) ==> Anchored(ApplyEffect(c, s, r, applied), k)
    ensures r.effect.Expose? && key == k ==> Anchored(ApplyEffect(c, s, r, applied), k)
    ensures !r.effect.Expose? && Anchored(ApplyEffect(c, s, r, applied), k) ==> Anchored(s, k)
  {
    var s1 := s.(local := r.local);
    var s' := ApplyEffect(c, s, r, applied);
    assert key in s.store ==> PodOk(c, key, s.store[key]);
    AnchoredFrame(s, s1, k);
    AnchoredFrame(s1, s, k);
    match r.effect
    case NoEffect =>
    case Expose(p) =>
      AnchoredFrame(s1, s', k);
      assert InfoOk(c, key.name, s.local.inMem[key.name]) && KeyOk(c, key);
      assert p in s'.exposing && KeyOf(p) == key;
    case RequestDelete(d) =>
      if applied && d in s.api {
        if Anchored(s1, k) { AnchoredWrite(s1, d, None, k); } else { UnanchoredWrite(s1, d, None, k); }
      }
    case MarkReady(p) =>
      if applied {
        var after := Some(s.api[KeyOf(p)].(ready := true, terminated := false));
        if Anchored(s1, k) { AnchoredWrite(s1, KeyOf(p), after, k); } else { UnanchoredWrite(s1, KeyOf(p), after, k); }
      }
  }

  /** Removing an object, or changing its status, does not make a key visible. */
  lemma UnanchoredWrite(s: State, k: PodKey, after: Option<Pod>, j: PodKey)
    requires !Anchored(s, j) && (Passes(after) ==> Passes(Lookup(s.api, k)))
    ensures !Anchored(WriteApi(s, k, after), j)
  {
    var s' := WriteApi(s, k, after);
    assert forall i | 0 <= i < |s.events| :: s'.events[i] == s.events[i];
  }

  predicate WritesApi(l: Label) { l.LApiCreate? || l.LApiUpdate? || l.LApiRemove? }

  lemma TimerWrite(c: Cluster, s: State, l: Label, k: PodKey)
    requires TimerOk(s, k) && Enabled(c, s, l) && WritesApi(l)
    ensures TimerOk(Apply(c, s, l), k)
  {
    if k in s.local.timers {
      match l
      case LApiCreate(p) =>
        AnchoredWrite(s, KeyOf(p), Some(p.(uid := s.nextUid)), k);
        AnchoredFrame(WriteApi(s, KeyOf(p), Some(p.(uid := s.nextUid))), Apply(c, s, l), k);
      case LApiUpdate(p) => AnchoredWrite(s, KeyOf(p), Some(p), k);
      case LApiRemove(d) => AnchoredWrite(s, d, None, k);
    }
  }

  /** One step keeps the timer of `k` anchored exactly when its guard holds. */
  lemma TimerStep(c: Cluster, s: State, l: Label, k: PodKey)
    requires Names(c, s) && TimerOk(s, k) && Enabled(c, s, l)
    ensures TimerOk(Apply(c, s, l), k) <==> TimerGuard(c, s, l, k)
  {
    if WritesApi(l) {
      TimerWrite(c, s, l, k);
    } else if l.LExpose? {
      TimerExpose(c, s, l.pod, l.outcome, k);
    } else if l.LSync? {
      TimerSync(c, s, l, k);
    } else if l.LHandle? {
      TimerHandle(c, s, k);
    } else {
      AnchoredFrame(s, Apply(c, s, l), k);
    }
  }

  /** The objects of managed pods always pass the filter, so their timers are always anchored. */
  predicate Timers(c: Cluster, s: State) { forall k | k in s.local.timers && k.name in c.home :: Anchored(s, k) }

  lemma TimersStep(c: Cluster, s: State, l: Label)
    requires Names(c, s) && Log(s) && Timers(c, s) && Enabled(c, s, l)
    ensures Timers(c, Apply(c, s, l))
  {
    var s' := Apply(c, s, l);
    forall k | k in s'.local.timers && k.name in c.home ensures Anchored(s', k) {
      ManagedTimer(c, s, l, k);
    }
  }

  lemma ManagedTimer(c: Cluster, s: State, l: Label, k: PodKey)
    requires Names(c, s) && Log(s) && TimerOk(s, k) && Enabled(c, s, l) && k.name in c.home
    ensures TimerOk(Apply(c, s, l), k)
  {
    if k in s.store {
      assert PodOk(c, k, s.store[k]);
      assert Passes(Lookup(s.store, k));
      assert Visible(s, s.delivered, k);
    }
    TimerStep(c, s, l, k);
  }

  // ---- the invariant of every reachable state --------------------------------------------------

  ghost predicate Inv(c: Cluster, s: State) { Names(c, s) && Log(s) && Timers(c, s) }

  lemma InvStep(c: Cluster, s: State, l: Label)
    requires Inv(c, s) && Enabled(c, s, l)
    ensures Inv(c, Apply(c, s, l))
  {
    NamesStep(c, s, l);
    LogStep(c, s, l);
    TimersStep(c, s, l);
  }

  lemma {:induction false} Reachable(c: Cluster, states: seq<State>, labels: seq<Label>, i: nat)
    requires IsRun(c, states, labels) && i < |states|
    ensures Inv(c, states[i])
  {
    if i > 0 {
      Reachable(c, states, labels, i - 1);
      assert StepAt(c, states, labels, i - 1);
      InvStep(c, states[i - 1], labels[i - 1]);
    }
  }

  // ---- no pod is forgotten ---------------------------------------------------------------------

  /** An in-memory pod that the kubelet has to bring to the API: template present, node not another kubelet's. */
  predicate InMemNeeds(c: Cluster, l: Local, templates: set<Owner>, nodes: map<string, string>, n: string) {
    && n in l.inMem && OwnerOf(l.inMem[n]) in templates
    && !Elsewhere(c.cfg.self, nodes, l.inMem[n].node)
  }

  /** An API pod that the kubelet has to make ready, or to remove. */
  predicate ApiNeeds(c: Cluster, api: map<PodKey, Pod>, nodes: map<string, string>, k: PodKey) {
    && k in api && EnqueueFilter(api[k])
    && !Elsewhere(c.cfg.self, nodes, api[k].node)
    && (api[k].deleting || (IsPodActive(api[k]) && !api[k].ready))
  }

  predicate ApiTracked(s: State, k: PodKey) {
    k in s.local.queue || k in s.local.delayed || Mentions(s.events, 0, k)
  }

  predicate InMemTracked(s: State, k: PodKey) {
    ApiTracked(s, k) || Exposing(s, k) || k in s.api
  }

  /** Every in-memory and every API pod that would need work under these templates and nodes is being tracked. */
  ghost predicate AllTracked(c: Cluster, s: State, templates: set<Owner>, nodes: map<string, string>) {
    && (forall n | InMemNeeds(c, s.local, templates, nodes, n) :: InMemTracked(s, InfoKey(s.local.inMem[n])))
    && (forall k | ApiNeeds(c, s.api, nodes, k) :: ApiTracked(s, k))
  }

  ghost predicate NoPodForgotten(c: Cluster, s: State) { AllTracked(c, s, s.templates, s.nodes) }

  predicate TurnsOurs(c: Cluster, s: State, nodes: map<string, string>, node: string) {
    Elsewhere(c.cfg.self, s.nodes, node) && !Elsewhere(c.cfg.self, nodes, node)
  }

  /**
   The check that would have to precede a step for it to be harmless. Only two steps can
   catch a pod that no one tracks any more: a template that appears for an idle in-memory
   pod, and a node that stops being another kubelet's while an idle pod is bound to it.
   */
  ghost predicate Guard(c: Cluster, s: State, l: Label) {
    match l
    case LTemplateAdded(o) =>
      forall n | n in s.local.inMem && OwnerOf(s.local.inMem[n]) == o
        && !Elsewhere(c.cfg.self, s.nodes, s.local.inMem[n].node) ::
        InMemTracked(s, InfoKey(s.local.inMem[n]))
    case LNodesChanged(nodes) =>
      && (forall n | n in s.local.inMem && OwnerOf(s.local.inMem[n]) in s.templates
            && TurnsOurs(c, s, nodes, s.local.inMem[n].node) ::
            InMemTracked(s, InfoKey(s.local.inMem[n])))
      && (forall k | ApiNeeds(c, s.api, nodes, k) && TurnsOurs(c, s, nodes, s.api[k].node) :: ApiTracked(s, k))
    case _ => true
  }

  /** Tracking survives whenever queue, delayed set, log, exposes and API only grow and nothing new needs work. */
  lemma ForgottenFrame(c: Cluster, s: State, s': State)
    requires NoPodForgotten(c, s)
    requires s'.api == s.api && s'.events == s.events && s.exposing <= s'.exposing && s'.nodes == s.nodes
    requires s'.local.inMem == s.local.inMem && s'.templates <= s.templates
    requires s.local.queue + s.local.delayed <= s'.local.queue + s'.local.delayed
    ensures NoPodForgotten(c, s')
  {
    forall n | InMemNeeds(c, s'.local, s'.templates, s'.nodes, n)
      ensures InMemTracked(s', InfoKey(s'.local.inMem[n]))
    {
      assert InMemNeeds(c, s.local, s.templates, s.nodes, n);
      var k := InfoKey(s.local.inMem[n]);
      if Exposing(s, k) {
        var p :| p in s.exposing && KeyOf(p) == k;
        assert p in s'.exposing;
      } else if k in s.local.queue + s.local.delayed {
        assert k in s'.local.queue + s'.local.delayed;
      }
    }
    forall k | ApiNeeds(c, s'.api, s'.nodes, k) ensures ApiTracked(s', k) {
      assert ApiTracked(s, k);
      assert k in s.local.queue + s.local.delayed ==> k in s'.local.queue + s'.local.delayed;
    }
  }

  lemma ForgottenBind(c: Cluster, s: State, l: Label)
    requires NoPodForgotten(c, s) && l.LBindPod? && Enabled(c, s, l)
    ensures NoPodForgotten(c, Apply(c, s, l))
  {
    var s' := Apply(c, s, l);
    forall n | InMemNeeds(c, s'.local, s'.templates, s'.nodes, n)
      ensures InMemTracked(s', InfoKey(s'.local.inMem[n]))
    {
      if n in s.local.inMem {
        assert InMemNeeds(c, s.local, s.templates, s.nodes, n);
        assert InMemTracked(s, InfoKey(s.local.inMem[n]));
        ExposingFrame(s, s', InfoKey(s.local.inMem[n]));
      }
    }
    forall k | ApiNeeds(c, s'.api, s'.nodes, k) ensures ApiTracked(s', k) {
      assert ApiTracked(s, k);
    }
  }

  /** An API write leaves an event behind for the key it touches. */
  lemma ForgottenWrite(c: Cluster, s: State, k: PodKey, after: Option<Pod>)
    requires NoPodForgotten(c, s)
    ensures NoPodForgotten(c, WriteApi(s, k, after))
  {
    var s' := WriteApi(s, k, after);
    forall n | InMemNeeds(c, s'.local, s'.templates, s'.nodes, n)
      ensures InMemTracked(s', InfoKey(s'.local.inMem[n]))
    {
      var j := InfoKey(s.local.inMem[n]);
      assert InMemTracked(s, j);
      MentionsWrite(s, k, after, 0, j);
      ExposingFrame(s, s', j);
    }
    forall j | ApiNeeds(c, s'.api, s'.nodes, j) ensures ApiTracked(s', j) {
      MentionsWrite(s, k, after, 0, j);
      assert j != k ==> ApiNeeds(c, s.api, s.nodes, j);
    }
  }

  /** The expose of another pod, or one that leaves its own object in the API, keeps a pod tracked. */
  lemma TrackedExpose(c: Cluster, s: State, p: Pod, outcome: ExposeOutcome, j: PodKey)
    requires Enabled(c, s, LExpose(p, outcome))
    ensures InMemTracked(s, j) ==> InMemTracked(ExposeStep(s, p, outcome), j)
    ensures ApiTracked(s, j) ==> ApiTracked(ExposeStep(s, p, outcome), j)
    ensures ApiTracked(ExposeStep(s, p, outcome), j) || Lookup(ExposeStep(s, p, outcome).api, j) == Lookup(s.api, j)
  {
    var s' := ExposeStep(s, p, outcome);
    MentionsWrite(s, KeyOf(p), Some(p.(uid := s.nextUid)), 0, j);
    if j != KeyOf(p) && Exposing(s, j) {
      var q :| q in s.exposing && KeyOf(q) == j;
      assert q in s'.exposing;
    }
  }

  lemma ForgottenExpose(c: Cluster, s: State, p: Pod, outcome: ExposeOutcome)
    requires NoPodForgotten(c, s) && Enabled(c, s, LExpose(p, outcome))
    ensures NoPodForgotten(c, ExposeStep(s, p, outcome))
  {
    var s' := ExposeStep(s, p, outcome);
    forall n | InMemNeeds(c, s'.local, s'.templates, s'.nodes, n)
      ensures InMemTracked(s', InfoKey(s'.local.inMem[n]))
    {
      assert InMemTracked(s, InfoKey(s.local.inMem[n]));
      TrackedExpose(c, s, p, outcome, InfoKey(s.local.inMem[n]));
    }
    forall j | ApiNeeds(c, s'.api, s'.nodes, j) ensures ApiTracked(s', j) {
      TrackedExpose(c, s, p, outcome, j);
    }
  }

  /** Handling the last event of a key enqueues it, or removes the in-memory pod it supersedes. */
  lemma ForgottenHandle(c: Cluster, s: State, s': State)
    requires Names(c, s) && Log(s) && NoPodForgotten(c, s) && Enabled(c, s, LHandle) && s' == Apply(c, s, LHandle)
    ensures NoPodForgotten(c, s')
  {
    HandlerOnlyDrops(s.local, s.events[0]);
    forall n | InMemNeeds(c, s'.local, s'.templates, s'.nodes, n)
      ensures InMemTracked(s', InfoKey(s'.local.inMem[n]))
    {
      assert InMemNeeds(c, s.local, s.templates, s.nodes, n);
      HandledInMem(c, s, n);
    }
    forall k | ApiNeeds(c, s'.api, s'.nodes, k) ensures ApiTracked(s', k) {
      assert PodOk(c, k, s.api[k]);
      HandledApi(c, s, k);
    }
  }

  lemma HandledApi(c: Cluster, s: State, k: PodKey)
    requires Log(s) && Enabled(c, s, LHandle) && ApiTracked(s, k)
    requires k in s.api && KeyOf(s.api[k]) == k && EnqueueFilter(s.api[k])
    ensures ApiTracked(Apply(c, s, LHandle), k)
  {
    HandleMentions(s, k);
    if s.events[0].key == k && !Mentions(s.events[1..], 0, k) {
      MentionsShift(s.events, 1, k);
      assert s.events[0].after == Lookup(s.api, k);
      assert Filtered(s.events[0]) == Notice(s.api[k], false);
    }
  }

  lemma HandledInMem(c: Cluster, s: State, n: string)
    requires Names(c, s) && Enabled(c, s, LHandle)
    requires n in s.local.inMem && n in Apply(c, s, LHandle).local.inMem
    requires InMemTracked(s, InfoKey(s.local.inMem[n]))
    ensures InMemTracked(Apply(c, s, LHandle), InfoKey(s.local.inMem[n]))
  {
    var info := s.local.inMem[n];
    var k, e := InfoKey(info), s.events[0];
    assert EventOk(c, e) && InfoOk(c, n, info);
    HandleMentions(s, k);
    if e.key == k { HandlerOfSelf(c, s.local, e, info); } else { HandlerOfOther(c, s.local, e, info); }
    ExposingFrame(s, Apply(c, s, LHandle), k);
  }

  lemma HandleMentions(s: State, k: PodKey)
    requires |s.events| > 0
    ensures Mentions(s.events, 0, k) <==> s.events[0].key == k || Mentions(s.events[1..], 0, k)
  {
    MentionsShift(s.events, 1, k);
  }

  lemma SyncTracksInMem(c: Cluster, s: State, k: PodKey, o: Outcome)
    requires k !in s.store && InMemNeeds(c, s.local, s.templates, s.nodes, k.name)
    ensures var r := SyncStep(c, s, k, o);
      k in r.local.delayed || r.effect == Expose(AsPersistentPod(s.local.inMem[k.name])) || k in s.local.timers
  {
    WaitingSummary(c.cfg, s.local.(queue := s.local.queue - {k}), k, AsPersistentPod(s.local.inMem[k.name]), true,
      s.now, o);
  }

  lemma SyncTracksApi(c: Cluster, s: State, k: PodKey, o: Outcome)
    requires ApiNeeds(c, s.store, s.nodes, k)
    ensures var r := SyncStep(c, s, k, o);
      k in r.local.delayed || (r.ok && (r.effect.RequestDelete? || r.effect.MarkReady?))
  {
    WaitingSummary(c.cfg, s.local.(queue := s.local.queue - {k}), k, s.store[k], false, s.now, o);
  }

  lemma ForgottenSync(c: Cluster, s: State, k: PodKey, r: SyncResult, applied: bool)
    requires Inv(c, s) && NoPodForgotten(c, s) && k in s.local.queue
    requires SyncFacts(c, s, k, r) && EffectPossible(c, s, r, applied)
    requires k !in s.store && InMemNeeds(c, s.local, s.templates, s.nodes, k.name) ==>
               k in r.local.delayed || r.effect.Expose? || k in s.local.timers
    requires ApiNeeds(c, s.store, s.nodes, k) ==>
               k in r.local.delayed || (r.ok && (r.effect.RequestDelete? || r.effect.MarkReady?))
    ensures NoPodForgotten(c, ApplyEffect(c, s, r, applied))
  {
    var s' := ApplyEffect(c, s, r, applied);
    SyncLog(c, s, k, r, applied);
    forall n | InMemNeeds(c, s'.local, s'.templates, s'.nodes, n)
      ensures InMemTracked(s', InfoKey(s'.local.inMem[n]))
    {
      assert InMemNeeds(c, s.local, s.templates, s.nodes, n) && InfoOk(c, n, s.local.inMem[n]);
      var j := InfoKey(s.local.inMem[n]);
      if j == k { SyncedInMem(c, s, k, r, applied); } else { OtherStaysTracked(c, s, k, r, applied, j); }
    }
    forall j | ApiNeeds(c, s'.api, s'.nodes, j) ensures ApiTracked(s', j) {
      if !Mentions(s'.events, 0, j) {
        assert Lookup(s'.api, j) == Lookup(s.api, j) && ApiNeeds(c, s.api, s.nodes, j);
        StoreCurrent(s, j);
      }
    }
  }

  lemma OtherStaysTracked(c: Cluster, s: State, k: PodKey, r: SyncResult, applied: bool, j: PodKey)
    requires Names(c, s) && SyncFacts(c, s, k, r) && EffectPossible(c, s, r, applied)
    requires j != k && InMemTracked(s, j)
    ensures InMemTracked(ApplyEffect(c, s, r, applied), j)
  {
    SyncLog(c, s, k, r, applied);
    ExposingFrame(s, ApplyEffect(c, s, r, applied), j);
  }

  /** With no event pending, the informer store shows the API object. */
  lemma StoreCurrent(s: State, k: PodKey)
    requires Log(s) && !Mentions(s.events, 0, k)
    ensures Lookup(s.store, k) == Lookup(s.api, k)
  {
    assert !Mentions(s.events, s.delivered, k);
  }

  /** An API write mentions the key it touches, and no other new one. */
  lemma WriteLog(s: State, k: PodKey, after: Option<Pod>)
    ensures var s' := WriteApi(s, k, after);
      && (forall j :: Mentions(s'.events, 0, j) <==> Mentions(s.events, 0, j) || j == k)
      && (forall j :: j == k || Lookup(s'.api, j) == Lookup(s.api, j))
  {
    forall j ensures Mentions(WriteApi(s, k, after).events, 0, j) <==> Mentions(s.events, 0, j) || j == k {
      MentionsWrite(s, k, after, 0, j);
    }
  }

  /** A sync only appends to the log, and every key whose API object it changes is mentioned there. */
  lemma SyncLog(c: Cluster, s: State, k: PodKey, r: SyncResult, applied: bool)
    requires Names(c, s) && SyncFacts(c, s, k, r) && EffectPossible(c, s, r, applied)
    ensures var s' := ApplyEffect(c, s, r, applied);
      && s'.local == r.local && s'.templates == s.templates && s'.nodes == s.nodes && s.exposing <= s'.exposing
      && (forall j :: Mentions(s.events, 0, j) ==> Mentions(s'.events, 0, j))
      && (forall j :: Mentions(s'.events, 0, j) || Lookup(s'.api, j) == Lookup(s.api, j))
      && (r.effect.Expose? ==> r.effect.pod in s'.exposing)
      && (r.ok && r.effect.RequestDelete? ==> Mentions(s'.events, 0, k) || k !in s'.api)
      && (r.ok && r.effect.MarkReady? ==> Mentions(s'.events, 0, k))
  {
    var s1 := s.(local := r.local);
    assert k in s.store ==> PodOk(c, k, s.store[k]);
    match r.effect
    case NoEffect =>
    case Expose(_) =>
    case RequestDelete(d) => WriteLog(s1, d, None);
    case MarkReady(p) =>
      if applied { WriteLog(s1, KeyOf(p), Some(s.api[KeyOf(p)].(ready := true, terminated := false))); }
  }

  lemma SyncedInMem(c: Cluster, s: State, k: PodKey, r: SyncResult, applied: bool)
    requires Inv(c, s) && InMemNeeds(c, s.local, s.templates, s.nodes, k.name)
    requires SyncFacts(c, s, k, r) && EffectPossible(c, s, r, applied)
    requires k == InfoKey(s.local.inMem[k.name])
    requires k in s.store || k in r.local.delayed || r.effect.Expose? || k in s.local.timers
    ensures InMemTracked(ApplyEffect(c, s, r, applied), k)
  {
    var s' := ApplyEffect(c, s, r, applied);
    SyncLog(c, s, k, r, applied);
    if k in s.store {
      if Mentions(s.events, s.delivered, k) { assert Mentions(s.events, 0, k); }
    } else if k in s.local.timers {
      assert InfoOk(c, k.name, s.local.inMem[k.name]);
      ExposingFrame(s, s', k);
      assert Anchored(s, k);
      if !Exposing(s, k) && k !in s.api {
        var j :| 0 <= j < |s.events| && IsDrop(s.events[j], k);
        assert Mentions(s.events, 0, k);
      }
    } else if r.effect.Expose? {
      assert KeyOf(r.effect.pod) == k;
    }
  }

  /** One step from a good state keeps every pod tracked exactly when its guard holds. */
  lemma ForgottenStep(c: Cluster, s: State, l: Label)
    requires Inv(c, s) && NoPodForgotten(c, s) && Enabled(c, s, l)
    ensures NoPodForgotten(c, Apply(c, s, l)) <==> Guard(c, s, l)
  {
    var s' := Apply(c, s, l);
    match l
    case LApiCreate(p) =>
      ForgottenWrite(c, s, KeyOf(p), Some(p.(uid := s.nextUid)));
      ForgottenFrame(c, WriteApi(s, KeyOf(p), Some(p.(uid := s.nextUid))), s');
    case LApiUpdate(p) => ForgottenWrite(c, s, KeyOf(p), Some(p));
    case LApiRemove(k) => ForgottenWrite(c, s, k, None);
    case LExpose(p, outcome) => ForgottenExpose(c, s, p, outcome);
    case LSync(k, o, applied) =>
      SyncSummary(c, s, k, o);
      if k !in s.store && InMemNeeds(c, s.local, s.templates, s.nodes, k.name) { SyncTracksInMem(c, s, k, o); }
      if ApiNeeds(c, s.store, s.nodes, k) { SyncTracksApi(c, s, k, o); }
      ForgottenSync(c, s, k, SyncStep(c, s, k, o), applied);
    case LHandle => ForgottenHandle(c, s, s');
    case LBindPod(_, _, _) => ForgottenBind(c, s, l);
    case LTemplateAdded(o) => TemplateGuard(c, s, o);
    case LNodesChanged(nodes) => NodesGuard(c, s, nodes);
    case _ => ForgottenFrame(c, s, s');
  }

  lemma TemplateGuard(c: Cluster, s: State, o: Owner)
    requires NoPodForgotten(c, s)
    ensures NoPodForgotten(c, Apply(c, s, LTemplateAdded(o))) <==> Guard(c, s, LTemplateAdded(o))
  {
    var s' := Apply(c, s, LTemplateAdded(o));
    assert forall k :: InMemTracked(s', k) == InMemTracked(s, k) && ApiTracked(s', k) == ApiTracked(s, k);
    assert forall n | InMemNeeds(c, s.local, s.templates, s.nodes, n) :: InMemTracked(s, InfoKey(s.local.inMem[n]));
    if NoPodForgotten(c, s') {
      forall n | n in s.local.inMem && OwnerOf(s.local.inMem[n]) == o
        && !Elsewhere(c.cfg.self, s.nodes, s.local.inMem[n].node)
        ensures InMemTracked(s, InfoKey(s.local.inMem[n]))
      {
        assert InMemNeeds(c, s'.local, s'.templates, s'.nodes, n);
      }
    }
  }

  lemma NodesGuard(c: Cluster, s: State, nodes: map<string, string>)
    requires NoPodForgotten(c, s)
    ensures NoPodForgotten(c, Apply(c, s, LNodesChanged(nodes))) <==> Guard(c, s, LNodesChanged(nodes))
  {
    var s' := Apply(c, s, LNodesChanged(nodes));
    assert forall k :: InMemTracked(s', k) == InMemTracked(s, k) && ApiTracked(s', k) == ApiTracked(s, k);
    if NoPodForgotten(c, s') {
      forall n | n in s.local.inMem && OwnerOf(s.local.inMem[n]) in s.templates
        && TurnsOurs(c, s, nodes, s.local.inMem[n].node)
        ensures InMemTracked(s, InfoKey(s.local.inMem[n]))
      {
        assert InMemNeeds(c, s'.local, s'.templates, nodes, n);
      }
    }
    if Guard(c, s, LNodesChanged(nodes)) {
      forall n | InMemNeeds(c, s'.local, s'.templates, nodes, n) ensures InMemTracked(s', InfoKey(s'.local.inMem[n])) {
        assert InMemNeeds(c, s.local, s.templates, s.nodes, n) || TurnsOurs(c, s, nodes, s.local.inMem[n].node);
      }
      forall k | ApiNeeds(c, s'.api, nodes, k) ensures ApiTracked(s', k) {
        assert ApiNeeds(c, s.api, s.nodes, k) || TurnsOurs(c, s, nodes, s.api[k].node);
      }
    }
  }

  /** In a whole run, no pod is ever forgotten if and only if every step met its guard. */
  lemma {:induction false} NoPodForgottenIffGuarded(c: Cluster, states: seq<State>, labels: seq<Label>)
    requires IsRun(c, states, labels)
    ensures (forall i | 0 <= i < |states| :: NoPodForgotten(c, states[i])) <==>
            (forall i | 0 <= i < |labels| :: Guard(c, states[i], labels[i]))
  {
    if forall i | 0 <= i < |states| :: NoPodForgotten(c, states[i]) {
      forall i | 0 <= i < |labels| ensures Guard(c, states[i], labels[i]) {
        Reachable(c, states, labels, i);
        assert NoPodForgotten(c, states[i]) && NoPodForgotten(c, states[i + 1]);
        assert StepAt(c, states, labels, i);
        ForgottenStep(c, states[i], labels[i]);
      }
    }
    if forall i | 0 <= i < |labels| :: Guard(c, states[i], labels[i]) {
      forall i | 0 <= i < |states| ensures NoPodForgotten(c, states[i]) {
        GuardedRun(c, states, labels, i);
      }
    }
  }

  lemma {:induction false} GuardedRun(c: Cluster, states: seq<State>, labels: seq<Label>, n: nat)
    requires IsRun(c, states, labels) && n < |states|
    requires forall i | 0 <= i < n :: Guard(c, states[i], labels[i])
    ensures NoPodForgotten(c, states[n])
  {
    if n > 0 {
      GuardedRun(c, states, labels, n - 1);
      Reachable(c, states, labels, n - 1);
      assert StepAt(c, states, labels, n - 1);
      ForgottenStep(c, states[n - 1], labels[n - 1]);
    }
  }

  // ---- a deployment discipline under which the guard always holds ------------------------------

  /** Templates do not come back once they were seen, and another kubelet's node stays another kubelet's. */
  ghost predicate Disciplined(c: Cluster, states: seq<State>, labels: seq<Label>)
    requires IsRun(c, states, labels)
  {
    forall i | 0 <= i < |labels| ::
      && (labels[i].LTemplateAdded? ==> forall j | 0 <= j <= i :: labels[i].owner !in states[j].templates)
      && (labels[i].LNodesChanged? ==> forall node :: !TurnsOurs(c, states[i], labels[i].nodes, node))
  }

  lemma {:induction false} TemplateWasThere(c: Cluster, states: seq<State>, labels: seq<Label>, i: nat, n: string)
    requires IsRun(c, states, labels) && i < |states| && n in states[i].local.inMem
    ensures exists j | 0 <= j <= i :: OwnerOf(states[i].local.inMem[n]) in states[j].templates
  {
    if i > 0 {
      var s, l := states[i - 1], labels[i - 1];
      assert StepAt(c, states, labels, i - 1);
      InMemGrowsByBind(c, s, l, n);
      if Lookup(s.local.inMem, n) == Lookup(states[i].local.inMem, n) {
        TemplateWasThere(c, states, labels, i - 1, n);
      } else {
        assert OwnerOf(states[i].local.inMem[n]) in states[i - 1].templates;
      }
    }
  }

  /** An in-memory pod appears only by a BindPod whose template the lister shows. */
  lemma InMemGrowsByBind(c: Cluster, s: State, l: Label, n: string)
    requires Enabled(c, s, l) && n in Apply(c, s, l).local.inMem
    ensures var s' := Apply(c, s, l);
      || Lookup(s.local.inMem, n) == Some(s'.local.inMem[n])
      || (l.LBindPod? && l.info.name == n && s'.local.inMem[n] == l.info && OwnerOf(l.info) in s.templates)
  {
    if l.LSync? {
      EffectKeepsLocal(c, s, l);
      SyncSummary(c, s, l.key, l.o);
    }
  }

  lemma {:induction false} DisciplinedRun(c: Cluster, states: seq<State>, labels: seq<Label>)
    requires IsRun(c, states, labels) && Disciplined(c, states, labels)
    ensures forall i | 0 <= i < |states| :: NoPodForgotten(c, states[i])
  {
    forall i | 0 <= i < |labels| ensures Guard(c, states[i], labels[i]) {
      if labels[i].LTemplateAdded? {
        forall n | n in states[i].local.inMem ensures OwnerOf(states[i].local.inMem[n]) != labels[i].owner {
          TemplateWasThere(c, states, labels, i, n);
        }
      }
    }
    NoPodForgottenIffGuarded(c, states, labels);
  }
}
