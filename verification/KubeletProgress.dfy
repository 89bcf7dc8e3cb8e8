/**
 One dead end only: from every reachable state in which no pod is forgotten, informer, workers, timers
 and expose goroutines can bring a pod to its goal by themselves, with no further RPC or API write from
 outside, exactly if there is a client for its node.
 */
module KubeletProgress {
  import opened Common
  import opened Kubelet
  import opened KubeletSystem
  import opened KubeletDecisions
  import opened KubeletInvariants
  import opened KubeletNoLoss

  /** Steps of the kubelet itself, its informer and the clock. */
  predicate Internal(l: Label) {
    l.LDeliver? || l.LHandle? || l.LSync? || l.LExpose? || l.LRequeue? || l.LTick?
  }

  ghost predicate Path(c: Cluster, s: State, labels: seq<Label>, t: State)
    decreases |labels|
  {
    if labels == [] then s == t
    else Internal(labels[0]) && Enabled(c, s, labels[0]) && Path(c, Apply(c, s, labels[0]), labels[1..], t)
  }

  ghost predicate CanReach(c: Cluster, s: State, t: State) { exists labels :: Path(c, s, labels, t) }

  lemma Stay(c: Cluster, s: State)
    ensures CanReach(c, s, s)
  {
    assert Path(c, s, [], s);
  }

  lemma Go(c: Cluster, s: State, l: Label, t: State)
    requires Internal(l) && Enabled(c, s, l) && CanReach(c, Apply(c, s, l), t)
    ensures CanReach(c, s, t)
  {
    var labels :| Path(c, Apply(c, s, l), labels, t);
    assert ([l] + labels)[1..] == labels;
    assert Path(c, s, [l] + labels, t);
  }

  lemma {:induction false} Chain(c: Cluster, s: State, labels: seq<Label>, t: State, u: State)
    requires Path(c, s, labels, t) && CanReach(c, t, u)
    ensures CanReach(c, s, u)
    decreases |labels|
  {
    if labels != [] {
      Chain(c, Apply(c, s, labels[0]), labels[1..], t, u);
      Go(c, s, labels[0], u);
    }
  }

  lemma Then(c: Cluster, s: State, t: State, u: State)
    requires CanReach(c, s, t) && CanReach(c, t, u)
    ensures CanReach(c, s, u)
  {
    var labels :| Path(c, s, labels, t);
    Chain(c, s, labels, t, u);
  }

  /** Reachable and with every pod tracked. */
  ghost predicate Good(c: Cluster, s: State) { Inv(c, s) && NoPodForgotten(c, s) }

  lemma GoodStep(c: Cluster, s: State, l: Label)
    requires Good(c, s) && Enabled(c, s, l) && Internal(l)
    ensures Good(c, Apply(c, s, l))
  {
    InvStep(c, s, l);
    ForgottenStep(c, s, l);
  }

  // ---- draining the informer -------------------------------------------------------------------

  /** Delivering and handling all events changes neither the API nor the environment. */
  lemma {:induction false} Drain(c: Cluster, s: State) returns (t: State)
    requires Good(c, s)
    ensures CanReach(c, s, t) && Good(c, t) && t.events == []
    ensures t.api == s.api && t.nodes == s.nodes && t.templates == s.templates && t.exposing == s.exposing
    ensures t.local.clients == s.local.clients
    ensures forall n | n in s.local.inMem && !Mentions(s.events, 0, InfoKey(s.local.inMem[n])) ::
              Lookup(t.local.inMem, n) == Lookup(s.local.inMem, n)
    decreases |s.events|, |s.events| - s.delivered
  {
    if s.events == [] {
      t := s;
      Stay(c, s);
    } else {
      var l, s' := DrainOne(c, s);
      t := Drain(c, s');
      Go(c, s, l, t);
    }
  }

  /** The next informer step. Events of other keys leave an in-memory pod alone. */
  lemma DrainOne(c: Cluster, s: State) returns (l: Label, s': State)
    requires Good(c, s) && s.events != []
    ensures Internal(l) && Enabled(c, s, l) && s' == Apply(c, s, l) && Good(c, s')
    ensures |s'.events| < |s.events| || (|s'.events| == |s.events| && s'.delivered > s.delivered)
    ensures s'.api == s.api && s'.nodes == s.nodes && s'.templates == s.templates && s'.exposing == s.exposing
    ensures s'.local.clients == s.local.clients && s'.delivered <= |s'.events|
    ensures forall n | n in s.local.inMem && !Mentions(s.events, 0, InfoKey(s.local.inMem[n])) ::
              && Lookup(s'.local.inMem, n) == Lookup(s.local.inMem, n)
              && !Mentions(s'.events, 0, InfoKey(s.local.inMem[n]))
  {
    l := if s.delivered > 0 then LHandle else LDeliver;
    s' := Apply(c, s, l);
    GoodStep(c, s, l);
    forall n | n in s.local.inMem && !Mentions(s.events, 0, InfoKey(s.local.inMem[n]))
      ensures Lookup(s'.local.inMem, n) == Lookup(s.local.inMem, n)
      ensures !Mentions(s'.events, 0, InfoKey(s.local.inMem[n]))
    {
      if l.LHandle? { HandleLeavesRecord(c, s, n); }
    }
  }

  lemma HandleLeavesRecord(c: Cluster, s: State, n: string)
    requires Inv(c, s) && Enabled(c, s, LHandle)
    requires n in s.local.inMem && !Mentions(s.events, 0, InfoKey(s.local.inMem[n]))
    ensures Lookup(HandleNotice(s.local, Filtered(s.events[0])).inMem, n) == Lookup(s.local.inMem, n)
    ensures !Mentions(s.events[1..], 0, InfoKey(s.local.inMem[n]))
  {
    var info := s.local.inMem[n];
    HandleMentions(s, InfoKey(info));
    assert EventOk(c, s.events[0]) && InfoOk(c, n, info);
    HandlerOfOther(c, s.local, s.events[0], info);
  }

  lemma Queue(c: Cluster, s: State, k: PodKey) returns (t: State)
    requires Good(c, s) && s.events == [] && (k in s.local.queue || k in s.local.delayed)
    ensures CanReach(c, s, t) && Good(c, t) && k in t.local.queue
    ensures t == s.(local := s.local.(queue := t.local.queue, delayed := t.local.delayed))
  {
    if k in s.local.queue {
      t := s;
      Stay(c, s);
    } else {
      t := Apply(c, s, LRequeue(k));
      GoodStep(c, s, LRequeue(k));
      Stay(c, t);
      Go(c, s, LRequeue(k), t);
    }
  }

  lemma Current(c: Cluster, s: State, k: PodKey)
    requires Good(c, s) && s.events == []
    ensures Lookup(s.store, k) == Lookup(s.api, k) && (k in s.api ==> KeyOf(s.api[k]) == k)
  {
    StoreCurrent(s, k);
    assert k in s.api ==> PodOk(c, k, s.api[k]);
  }

  // ---- API pods --------------------------------------------------------------------------------

  /** An API pod that is ours, has a client and waits to be made ready, seen by an up-to-date informer. */
  ghost predicate Waiting(c: Cluster, s: State, k: PodKey) {
    && Good(c, s) && s.events == [] && k in s.api && EnqueueFilter(s.api[k])
    && Here(c.cfg.self, s.nodes, s.api[k].node) && IsPodActive(s.api[k]) && !s.api[k].ready
    && HasClient(s.local, s.api[k])
  }

  predicate Ready(s: State, k: PodKey) { k in s.api && s.api[k].ready }

  /** What the sync of such a pod does once its time has come, or when it has no timer yet. */
  lemma SyncDue(c: Cluster, s: State, k: PodKey)
    requires Waiting(c, s, k) && k in s.local.queue
    ensures var r := SyncStep(c, s, k, AllFine);
      if k in s.local.timers && s.local.timers[k] <= s.now then r.effect == MarkReady(s.api[k]) && r.ok
      else if k !in s.local.timers && c.cfg.readyDelay > 0
      then r.effect == NoEffect && k in r.local.timers && r.local.timers[k] == s.now + c.cfg.readyDelay
      else k in s.local.timers || (r.effect == MarkReady(s.api[k]) && r.ok)
  {
    Current(c, s, k);
  }

  lemma SyncToReady(c: Cluster, s: State, k: PodKey) returns (t: State)
    requires Waiting(c, s, k) && k in s.local.queue
    requires SyncStep(c, s, k, AllFine).effect == MarkReady(s.api[k]) && SyncStep(c, s, k, AllFine).ok
    ensures CanReach(c, s, t) && Ready(t, k)
  {
    Current(c, s, k);
    var l := LSync(k, AllFine, true);
    t := Apply(c, s, l);
    Stay(c, t);
    Go(c, s, l, t);
  }

  /** With its timer running, the pod becomes ready once the clock gets there. */
  lemma TimedPodBecomesReady(c: Cluster, s: State, k: PodKey) returns (t: State)
    requires Waiting(c, s, k) && k in s.local.timers
    ensures CanReach(c, s, t) && Ready(t, k)
  {
    assert ApiNeeds(c, s.api, s.nodes, k) && ApiTracked(s, k);
    var s1 := Queue(c, s, k);
    var tick := LTick(Max(s1.now, s1.local.timers[k]));
    var s2 := Apply(c, s1, tick);
    GoodStep(c, s1, tick);
    SyncDue(c, s2, k);
    t := SyncToReady(c, s2, k);
    Go(c, s1, tick, t);
    Then(c, s, s1, t);
  }

  lemma StartTimer(c: Cluster, s: State, k: PodKey)
    requires Waiting(c, s, k) && k in s.local.queue && k !in s.local.timers && c.cfg.readyDelay > 0
    ensures Enabled(c, s, LSync(k, AllFine, false))
    ensures var s' := Apply(c, s, LSync(k, AllFine, false)); Waiting(c, s', k) && k in s'.local.timers
  {
    SyncDue(c, s, k);
    GoodStep(c, s, LSync(k, AllFine, false));
    SparesSync(c, s, LSync(k, AllFine, false), k);
    assert Apply(c, s, LSync(k, AllFine, false)).events == [];
  }

  /** An API pod of ours that waits to be ready can become ready if there is a client for its node. */
  lemma PodBecomesReady(c: Cluster, s: State, k: PodKey) returns (t: State)
    requires Good(c, s) && k in s.api && EnqueueFilter(s.api[k]) && Here(c.cfg.self, s.nodes, s.api[k].node)
    requires IsPodActive(s.api[k]) && !s.api[k].ready && HasClient(s.local, s.api[k])
    ensures CanReach(c, s, t) && Ready(t, k)
  {
    var s1 := Drain(c, s);
    assert ApiNeeds(c, s1.api, s1.nodes, k) && ApiTracked(s1, k);
    var s2 := Queue(c, s1, k);
    if k in s2.local.timers {
      t := TimedPodBecomesReady(c, s2, k);
    } else if c.cfg.readyDelay > 0 {
      StartTimer(c, s2, k);
      t := TimedPodBecomesReady(c, Apply(c, s2, LSync(k, AllFine, false)), k);
      Go(c, s2, LSync(k, AllFine, false), t);
    } else {
      SyncDue(c, s2, k);
      t := SyncToReady(c, s2, k);
    }
    Then(c, s1, s2, t);
    Then(c, s, s1, t);
  }

  /** An API pod of ours whose deletion was requested can always be removed. */
  lemma DeletedPodGoes(c: Cluster, s: State, k: PodKey) returns (t: State)
    requires Good(c, s) && k in s.api && EnqueueFilter(s.api[k]) && Here(c.cfg.self, s.nodes, s.api[k].node)
            && s.api[k].deleting
    ensures CanReach(c, s, t) && k !in t.api
  {
    var s1 := Drain(c, s);
    assert ApiNeeds(c, s1.api, s1.nodes, k) && ApiTracked(s1, k);
    var s2 := Queue(c, s1, k);
    Current(c, s2, k);
    var l := LSync(k, AllFine, true);
    t := Apply(c, s2, l);
    Stay(c, t);
    Go(c, s2, l, t);
    Then(c, s1, s2, t);
    Then(c, s, s1, t);
  }

  // ---- in-memory pods --------------------------------------------------------------------------

  predicate ExposersHaveClients(s: State, k: PodKey) {
    forall p | p in s.exposing && KeyOf(p) == k :: HasClient(s.local, p)
  }

  lemma ExposeNow(c: Cluster, s: State, k: PodKey) returns (t: State)
    requires Good(c, s) && k !in s.api && Exposing(s, k) && ExposersHaveClients(s, k)
    ensures CanReach(c, s, t) && k in t.api
  {
    var p :| p in s.exposing && KeyOf(p) == k;
    t := Apply(c, s, LExpose(p, Created));
    Stay(c, t);
    Go(c, s, LExpose(p, Created), t);
  }

  /** Syncing an in-memory pod that is ours leaves it with an expose in progress. */
  lemma SyncExposes(c: Cluster, s: State, k: PodKey)
    requires Good(c, s) && s.events == [] && k !in s.api && k in s.local.queue
    requires InMemNeeds(c, s.local, s.templates, s.nodes, k.name) && k == InfoKey(s.local.inMem[k.name])
    requires Here(c.cfg.self, s.nodes, s.local.inMem[k.name].node)
    ensures Enabled(c, s, LSync(k, AllFine, false))
    ensures var s' := Apply(c, s, LSync(k, AllFine, false));
      && Good(c, s') && Exposing(s', k) && k !in s'.api && s'.local.clients == s.local.clients
      && s'.exposing <= s.exposing + multiset{AsPersistentPod(s.local.inMem[k.name])}
  {
    Current(c, s, k);
    SyncSummary(c, s, k, AllFine);
    WaitingSummary(c.cfg, s.local.(queue := s.local.queue - {k}), k, AsPersistentPod(s.local.inMem[k.name]), true,
      s.now, AllFine);
    var l := LSync(k, AllFine, false);
    var s' := Apply(c, s, l);
    GoodStep(c, s, l);
    if k in s.local.timers {
      assert InfoOk(c, k.name, s.local.inMem[k.name]);
      assert Anchored(s, k);
      ExposingFrame(s, s', k);
    } else {
      assert AsPersistentPod(s.local.inMem[k.name]) in s'.exposing;
    }
  }

  /** An in-memory pod of ours with template and client can reach the API, unless an event superseded it. */
  lemma InMemPodReachesApi(c: Cluster, s: State, n: string) returns (t: State)
    requires Good(c, s) && InMemNeeds(c, s.local, s.templates, s.nodes, n)
            && Here(c.cfg.self, s.nodes, s.local.inMem[n].node)
    requires s.local.inMem[n].node in s.local.clients && ExposersHaveClients(s, InfoKey(s.local.inMem[n]))
    ensures CanReach(c, s, t)
            && (InfoKey(s.local.inMem[n]) in t.api || Lookup(t.local.inMem, n) != Lookup(s.local.inMem, n))
  {
    var k := InfoKey(s.local.inMem[n]);
    var s1 := Drain(c, s);
    if k in s1.api || Lookup(s1.local.inMem, n) != Lookup(s.local.inMem, n) {
      t := s1;
    } else {
      assert InfoOk(c, n, s1.local.inMem[n]);
      assert InMemNeeds(c, s1.local, s1.templates, s1.nodes, n) && InMemTracked(s1, k);
      if Exposing(s1, k) {
        t := ExposeNow(c, s1, k);
      } else {
        var s2 := Queue(c, s1, k);
        SyncExposes(c, s2, k);
        t := ExposeNow(c, Apply(c, s2, LSync(k, AllFine, false)), k);
        Go(c, s2, LSync(k, AllFine, false), t);
        Then(c, s1, s2, t);
      }
      Then(c, s, s1, t);
    }
  }

  lemma FreshExpose(c: Cluster, s: State, k: PodKey)
    requires Good(c, s) && s.events == [] && k !in s.api && !Exposing(s, k) && k in s.local.queue
    requires InMemNeeds(c, s.local, s.templates, s.nodes, k.name) && k == InfoKey(s.local.inMem[k.name])
    requires Here(c.cfg.self, s.nodes, s.local.inMem[k.name].node)
    requires Enabled(c, s, LSync(k, AllFine, false))
    ensures AsPersistentPod(s.local.inMem[k.name]) in Apply(c, s, LSync(k, AllFine, false)).exposing
    ensures Apply(c, s, LSync(k, AllFine, false)).nodes == s.nodes
  {
    Current(c, s, k);
    assert InfoOk(c, k.name, s.local.inMem[k.name]);
    assert !Anchored(s, k) && k !in s.local.timers;
    WaitingSummary(c.cfg, s.local.(queue := s.local.queue - {k}), k, AsPersistentPod(s.local.inMem[k.name]), true,
      s.now, AllFine);
  }

  /** A freshly bound pod of ours with a client can be exposed and made ready, from the kubelet's memory alone. */
  lemma BoundPodBecomesReady(c: Cluster, s: State, n: string) returns (t: State)
    requires Good(c, s) && InMemNeeds(c, s.local, s.templates, s.nodes, n)
            && Here(c.cfg.self, s.nodes, s.local.inMem[n].node)
    requires var k := InfoKey(s.local.inMem[n]); k !in s.api && !Mentions(s.events, 0, k) && !Exposing(s, k)
    requires s.local.inMem[n].node in s.local.clients
    ensures CanReach(c, s, t) && Ready(t, InfoKey(s.local.inMem[n]))
  {
    var info := s.local.inMem[n];
    var k := InfoKey(info);
    var s1 := Drain(c, s);
    assert InfoOk(c, n, s1.local.inMem[n]) && InMemNeeds(c, s1.local, s1.templates, s1.nodes, n) && InMemTracked(s1, k);
    var s2 := Queue(c, s1, k);
    SyncExposes(c, s2, k);
    FreshExpose(c, s2, k);
    var sync := LSync(k, AllFine, false);
    var s3 := Apply(c, s2, sync);
    t := ExposedPodBecomesReady(c, s3, AsPersistentPod(info));
    Go(c, s2, sync, t);
    Then(c, s1, s2, t);
    Then(c, s, s1, t);
  }

  lemma ExposedPodBecomesReady(c: Cluster, s: State, p: Pod) returns (t: State)
    requires Good(c, s) && p in s.exposing && KeyOf(p) !in s.api && Here(c.cfg.self, s.nodes, p.node)
    requires EnqueueFilter(p) && IsPodActive(p) && !p.ready && HasClient(s.local, p)
    ensures CanReach(c, s, t) && Ready(t, KeyOf(p))
  {
    var create := LExpose(p, Created);
    GoodStep(c, s, create);
    t := PodBecomesReady(c, Apply(c, s, create), KeyOf(p));
    Go(c, s, create, t);
  }

  // ---- the dead end ----------------------------------------------------------------------------

  /** An API pod that waits to be made ready, has no client and nothing pending. */
  ghost predicate StuckInApi(c: Cluster, s: State, k: PodKey) {
    && Inv(c, s) && k in s.api && IsPodActive(s.api[k]) && !s.api[k].ready && !HasClient(s.local, s.api[k])
    && !Mentions(s.events, 0, k) && Lookup(s.store, k) == Lookup(s.api, k)
  }

  /** An in-memory pod without a client that neither API, informer nor another node's expose knows. */
  ghost predicate StuckInMem(c: Cluster, s: State, info: PodInfo) {
    var k := InfoKey(info);
    && Inv(c, s) && Lookup(s.local.inMem, info.name) == Some(info) && info.node !in s.local.clients
    && k !in s.api && k !in s.store && !Mentions(s.events, 0, k)
    && forall p | p in s.exposing && KeyOf(p) == k :: p.node == info.node
  }

  /** The step leaves API, informer store and log of `k` alone, and the clients. */
  predicate Spares(s: State, s': State, k: PodKey) {
    && Lookup(s'.api, k) == Lookup(s.api, k) && Lookup(s'.store, k) == Lookup(s.store, k)
    && (Mentions(s'.events, 0, k) <==> Mentions(s.events, 0, k)) && s'.local.clients == s.local.clients
  }

  lemma SparesInformer(c: Cluster, s: State, l: Label, k: PodKey)
    requires Enabled(c, s, l) && (l.LDeliver? || l.LHandle?) && !Mentions(s.events, 0, k)
    ensures Spares(s, Apply(c, s, l), k) && Apply(c, s, l).exposing == s.exposing
  {
    if l.LDeliver? {
      assert s.events[s.delivered].key != k;
    } else {
      HandleMentions(s, k);
    }
  }

  lemma SparesWrite(s: State, j: PodKey, after: Option<Pod>, k: PodKey)
    requires j != k
    ensures Spares(s, WriteApi(s, j, after), k)
  {
    MentionsWrite(s, j, after, 0, k);
  }

  lemma SparesExpose(c: Cluster, s: State, p: Pod, outcome: ExposeOutcome, k: PodKey)
    requires Enabled(c, s, LExpose(p, outcome)) && (KeyOf(p) != k || k in s.api)
    ensures Spares(s, ExposeStep(s, p, outcome), k) && ExposeStep(s, p, outcome).exposing <= s.exposing
  {
    if KeyOf(p) != k { SparesWrite(s, KeyOf(p), Some(p.(uid := s.nextUid)), k); }
  }

  /** A sync of another key, or one that writes nothing. */
  lemma SparesSync(c: Cluster, s: State, l: Label, k: PodKey)
    requires Names(c, s) && Enabled(c, s, l) && l.LSync?
    requires var e := SyncStep(c, s, l.key, l.o).effect; l.key != k || e.NoEffect? || e.Expose?
    ensures Spares(s, Apply(c, s, l), k) && Apply(c, s, l).local.inMem == s.local.inMem
  {
    var j, r := l.key, SyncStep(c, s, l.key, l.o);
    SyncSummary(c, s, j, l.o);
    SparesEffect(c, s, j, r, l.applied, k);
  }

  lemma SparesEffect(c: Cluster, s: State, j: PodKey, r: SyncResult, applied: bool, k: PodKey)
    requires Names(c, s) && SyncFacts(c, s, j, r) && EffectPossible(c, s, r, applied)
    requires j != k || r.effect.NoEffect? || r.effect.Expose?
    ensures var s' := ApplyEffect(c, s, r, applied); Spares(s, s', k) && s'.local == r.local
  {
    var s1 := s.(local := r.local);
    assert j in s.store ==> PodOk(c, j, s.store[j]);
    match r.effect
    case NoEffect =>
    case Expose(_) =>
    case RequestDelete(d) => SparesWrite(s1, d, None, k);
    case MarkReady(p) =>
      if applied { SparesWrite(s1, KeyOf(p), Some(s.api[KeyOf(p)].(ready := true, terminated := false)), k); }
  }

  /** Without a client, the sync of a waiting API pod writes nothing. */
  lemma NoClientNoWrite(c: Cluster, s: State, l: Label, k: PodKey)
    requires StuckInApi(c, s, k) && Enabled(c, s, l) && l.LSync? && l.key == k
    ensures SyncStep(c, s, k, l.o).effect.NoEffect?
  {
    SyncSummary(c, s, k, l.o);
  }

  lemma SparesStuck(c: Cluster, s: State, l: Label, k: PodKey)
    requires StuckInApi(c, s, k) && Internal(l) && Enabled(c, s, l)
    ensures Spares(s, Apply(c, s, l), k)
  {
    if l.LDeliver? || l.LHandle? {
      SparesInformer(c, s, l, k);
    } else if l.LSync? {
      if l.key == k { NoClientNoWrite(c, s, l, k); }
      SparesSync(c, s, l, k);
    } else if l.LExpose? {
      SparesExpose(c, s, l.pod, l.outcome, k);
    }
  }

  lemma StuckApiStep(c: Cluster, s: State, l: Label, k: PodKey)
    requires StuckInApi(c, s, k) && Internal(l) && Enabled(c, s, l)
    ensures StuckInApi(c, Apply(c, s, l), k)
  {
    InvStep(c, s, l);
    SparesStuck(c, s, l, k);
  }

  lemma {:induction false} StuckApiPath(c: Cluster, s: State, labels: seq<Label>, t: State, k: PodKey)
    requires StuckInApi(c, s, k) && Path(c, s, labels, t)
    ensures StuckInApi(c, t, k)
    decreases |labels|
  {
    if labels != [] {
      StuckApiStep(c, s, labels[0], k);
      StuckApiPath(c, Apply(c, s, labels[0]), labels[1..], t, k);
    }
  }

  /**
   With no event of its own pending, an API pod of ours that waits to be ready can become ready by the
   kubelet's own steps if and only if there is a client for its node.
   */
  lemma ReadyIffClient(c: Cluster, s: State, k: PodKey)
    requires Good(c, s) && k in s.api && EnqueueFilter(s.api[k]) && Here(c.cfg.self, s.nodes, s.api[k].node)
    requires IsPodActive(s.api[k]) && !s.api[k].ready && !Mentions(s.events, 0, k)
    ensures (exists t :: CanReach(c, s, t) && Ready(t, k)) <==> HasClient(s.local, s.api[k])
  {
    if HasClient(s.local, s.api[k]) {
      var t := PodBecomesReady(c, s, k);
    } else {
      StoreCurrent(s, k);
      forall t | CanReach(c, s, t) ensures !Ready(t, k) {
        var labels :| Path(c, s, labels, t);
        StuckApiPath(c, s, labels, t, k);
      }
    }
  }

  /** A sync leaves the record alone, and exposes the pod only to its own node. */
  lemma StuckMemSync(c: Cluster, s: State, l: Label, info: PodInfo)
    requires StuckInMem(c, s, info) && Enabled(c, s, l) && l.LSync?
    ensures var s' := Apply(c, s, l);
      && Spares(s, s', InfoKey(info)) && s'.local.inMem == s.local.inMem
      && forall p | p in s'.exposing && KeyOf(p) == InfoKey(info) :: p.node == info.node
  {
    var j, r := l.key, SyncStep(c, s, l.key, l.o);
    SyncSummary(c, s, j, l.o);
    SparesSync(c, s, l, InfoKey(info));
    if r.effect.Expose? {
      assert InfoOk(c, j.name, s.local.inMem[j.name]) && InfoOk(c, info.name, info);
    }
  }

  lemma StuckMemLocal(c: Cluster, s: State, l: Label, info: PodInfo)
    requires StuckInMem(c, s, info) && Internal(l) && Enabled(c, s, l) && !l.LSync?
    ensures var s' := Apply(c, s, l);
      && Spares(s, s', InfoKey(info)) && Lookup(s'.local.inMem, info.name) == Some(info) && s'.exposing <= s.exposing
  {
    if l.LDeliver? || l.LHandle? {
      SparesInformer(c, s, l, InfoKey(info));
      if l.LHandle? { HandleLeavesRecord(c, s, info.name); }
    } else if l.LExpose? {
      SparesExpose(c, s, l.pod, l.outcome, InfoKey(info));
    }
  }

  lemma StuckMemStep(c: Cluster, s: State, l: Label, info: PodInfo)
    requires StuckInMem(c, s, info) && Internal(l) && Enabled(c, s, l)
    ensures StuckInMem(c, Apply(c, s, l), info)
  {
    InvStep(c, s, l);
    if l.LSync? { StuckMemSync(c, s, l, info); } else { StuckMemLocal(c, s, l, info); }
  }

  lemma {:induction false} StuckMemPath(c: Cluster, s: State, labels: seq<Label>, t: State, info: PodInfo)
    requires StuckInMem(c, s, info) && Path(c, s, labels, t)
    ensures StuckInMem(c, t, info)
    decreases |labels|
  {
    if labels != [] {
      StuckMemStep(c, s, labels[0], info);
      StuckMemPath(c, Apply(c, s, labels[0]), labels[1..], t, info);
    }
  }

  /**
   A freshly bound pod of ours can become ready, or even reach the API, by the kubelet's own steps if and
   only if there is a client for its node.
   */
  lemma BoundReadyIffClient(c: Cluster, s: State, n: string)
    requires Good(c, s) && InMemNeeds(c, s.local, s.templates, s.nodes, n)
    requires Here(c.cfg.self, s.nodes, s.local.inMem[n].node)
    requires var k := InfoKey(s.local.inMem[n]); k !in s.api && !Mentions(s.events, 0, k) && !Exposing(s, k)
    ensures var info := s.local.inMem[n];
      && ((exists t :: CanReach(c, s, t) && Ready(t, InfoKey(info))) <==> info.node in s.local.clients)
      && ((exists t :: CanReach(c, s, t) && InfoKey(info) in t.api) <==> info.node in s.local.clients)
  {
    var info := s.local.inMem[n];
    if info.node in s.local.clients {
      var t := BoundPodBecomesReady(c, s, n);
    } else {
      StoreCurrent(s, InfoKey(info));
      assert InfoOk(c, n, info);
      forall t | CanReach(c, s, t) ensures InfoKey(info) !in t.api {
        var labels :| Path(c, s, labels, t);
        StuckMemPath(c, s, labels, t, info);
      }
    }
  }
}
