/**
 The kubelet in its environment, as a transition system: RPC calls, API writes,
 informer deliveries, event handlers, queue workers, background exposes and the
 clock interleave in any order. One call of `SyncPod` and one event-handler call
 are each a single step.
 */
module KubeletSystem {
  import opened Common
  import opened Kubelet

  /**
   The fixed facts of a deployment: `home` gives the namespace of every pod name that
   is reserved for managed pods. All other names are free for Kubernetes-originated pods.
   */
  datatype Cluster = Cluster(cfg: Config, home: map<string, string>)

  /**
   `events` are the API changes whose handlers have not run yet, oldest first; the
   first `delivered` of them are already visible in the informer's `store`.
   `exposing` are the pods of the running `ExposeManagedPod` goroutines.
   */
  datatype State = State(
    local: Local, now: Time,
    api: map<PodKey, Pod>, nextUid: nat,
    store: map<PodKey, Pod>, events: seq<Event>, delivered: nat,
    exposing: multiset<Pod>,
    templates: set<Owner>, nodes: map<string, string>)

  datatype ExposeOutcome = Created | AlreadyExists | Failed | CreatedReplyLost

  datatype Label =
    | LHandshake(source: string, epoch: string, node: string)
    | LBindPod(source: string, epoch: string, info: PodInfo)
    | LApiCreate(pod: Pod)
    | LApiUpdate(pod: Pod)
    | LApiRemove(key: PodKey)
    | LDeliver
    | LHandle
    | LSync(key: PodKey, o: Outcome, applied: bool)
    | LExpose(pod: Pod, outcome: ExposeOutcome)
    | LRequeue(key: PodKey)
    | LTick(now: Time)
    | LTemplateAdded(owner: Owner)
    | LTemplateRemoved(owner: Owner)
    | LNodesChanged(nodes: map<string, string>)
    | LNodeDeleted(node: string)

  predicate KeyOk(c: Cluster, k: PodKey) { k.name in c.home ==> c.home[k.name] == k.ns }

  /** What the deployment promises about every API object. */
  predicate Admissible(c: Cluster, p: Pod) {
    && KeyOk(c, KeyOf(p))
    && (p.name in c.home ==> p.managed && p.persistent && EnqueueFilter(p))
  }

  predicate Initial(s: State) {
    && s.local == EmptyLocal()
    && s.api == map[] && s.store == map[] && s.events == [] && s.delivered == 0
    && s.exposing == multiset{} && s.nextUid > 0
  }

  function ViewOf(s: State): View { View(s.store, s.templates, s.nodes) }

  function WriteApi(s: State, k: PodKey, after: Option<Pod>): State {
    s.(api := Store(s.api, k, after), events := s.events + [Event(k, Lookup(s.api, k), after)])
  }

  function CreateApi(s: State, p: Pod): State {
    WriteApi(s, KeyOf(p), Some(p.(uid := s.nextUid))).(nextUid := s.nextUid + 1)
  }

  function RemoveApi(s: State, k: PodKey): State {
    if k in s.api then WriteApi(s, k, None) else s
  }

  /** A status write needs the object it was computed from: the same uid for a patch, the same object for an update. */
  predicate Markable(c: Cluster, s: State, p: Pod) {
    && KeyOf(p) in s.api && s.api[KeyOf(p)].uid == p.uid
    && (c.cfg.patch || s.api[KeyOf(p)] == p)
  }

  function MarkApiReady(s: State, p: Pod): State
    requires KeyOf(p) in s.api
  {
    WriteApi(s, KeyOf(p), Some(s.api[KeyOf(p)].(ready := true, terminated := false)))
  }

  function SyncStep(c: Cluster, s: State, key: PodKey, o: Outcome): SyncResult {
    ProcessItem(c.cfg, s.local, ViewOf(s), key, s.now, o)
  }

  /**
   A failed API call may still have been carried out; a successful one has been. A call that finds no
   client brings the process down, so no step of a run makes one.
   */
  predicate EffectPossible(c: Cluster, s: State, r: SyncResult, applied: bool) {
    match r.effect
    case NoEffect => true
    case Expose(_) => true
    case RequestDelete(_) => r.ok ==> applied
    case MarkReady(p) => HasClient(s.local, p) && (r.ok ==> applied) && (applied ==> Markable(c, s, p))
  }

  function ApplyEffect(c: Cluster, s: State, r: SyncResult, applied: bool): State
    requires EffectPossible(c, s, r, applied)
  {
    var s1 := s.(local := r.local);
    match r.effect
    case NoEffect => s1
    case Expose(p) => s1.(exposing := s1.exposing + multiset{p})
    case RequestDelete(k) => if applied then RemoveApi(s1, k) else s1
    case MarkReady(p) => if applied then MarkApiReady(s1, p) else s1
  }

  predicate Enabled(c: Cluster, s: State, l: Label) {
    match l
    case LHandshake(_, _, _) => true
    case LBindPod(_, _, info) => info.name in c.home && c.home[info.name] == info.ns
    case LApiCreate(p) => KeyOf(p) !in s.api && Admissible(c, p)
    case LApiUpdate(p) => KeyOf(p) in s.api && s.api[KeyOf(p)].uid == p.uid && Admissible(c, p)
    case LApiRemove(k) => k in s.api
    case LDeliver => s.delivered < |s.events|
    case LHandle => 0 < s.delivered <= |s.events|
    case LSync(k, o, applied) => k in s.local.queue && EffectPossible(c, s, SyncStep(c, s, k, o), applied)
    case LExpose(p, outcome) =>
      && p in s.exposing && HasClient(s.local, p)
      && (outcome.Created? || outcome.CreatedReplyLost? ==> KeyOf(p) !in s.api)
      && (outcome.AlreadyExists? ==> KeyOf(p) in s.api)
    case LRequeue(k) => k in s.local.delayed
    case LTick(t) => s.now <= t
    case LTemplateAdded(_) => true
    case LTemplateRemoved(_) => true
    case LNodesChanged(_) => true
    case LNodeDeleted(_) => true
  }

  function ExposeStep(s: State, p: Pod, outcome: ExposeOutcome): State
    requires p in s.exposing
  {
    match outcome
    case Created => CreateApi(s, p).(exposing := s.exposing - multiset{p})
    case AlreadyExists => s.(exposing := s.exposing - multiset{p})
    case Failed => s
    case CreatedReplyLost => CreateApi(s, p)
  }

  function Apply(c: Cluster, s: State, l: Label): State
    requires Enabled(c, s, l)
  {
    match l
    case LHandshake(source, epoch, node) => s.(local := Handshake(s.local, source, epoch, node))
    case LBindPod(source, epoch, info) => s.(local := BindPod(s.local, s.templates, source, epoch, info))
    case LApiCreate(p) => CreateApi(s, p)
    case LApiUpdate(p) => WriteApi(s, KeyOf(p), Some(p))
    case LApiRemove(k) => RemoveApi(s, k)
    case LDeliver =>
      var e := s.events[s.delivered];
      s.(store := Store(s.store, e.key, e.after), delivered := s.delivered + 1)
    case LHandle =>
      s.(local := HandleNotice(s.local, Filtered(s.events[0])), events := s.events[1..], delivered := s.delivered - 1)
    case LSync(k, o, applied) => ApplyEffect(c, s, SyncStep(c, s, k, o), applied)
    case LExpose(p, outcome) => ExposeStep(s, p, outcome)
    case LRequeue(k) => s.(local := s.local.(queue := s.local.queue + {k}, delayed := s.local.delayed - {k}))
    case LTick(t) => s.(now := t)
    case LTemplateAdded(o) => s.(templates := s.templates + {o})
    case LTemplateRemoved(o) => s.(templates := s.templates - {o})
    case LNodesChanged(nodes) => s.(nodes := nodes)
    case LNodeDeleted(node) => s.(local := NodeDeleted(s.local, node))
  }

  predicate Next(c: Cluster, s: State, l: Label, s': State) { Enabled(c, s, l) && s' == Apply(c, s, l) }

  /** `states[i]` is where step `labels[i]` starts and `states[i + 1]` where it ends. */
  predicate StepAt(c: Cluster, states: seq<State>, labels: seq<Label>, i: nat)
    requires |states| == |labels| + 1 && i < |labels|
  {
    Next(c, states[i], labels[i], states[i + 1])
  }

  ghost predicate IsRun(c: Cluster, states: seq<State>, labels: seq<Label>) {
    && |states| == |labels| + 1
    && Initial(states[0])
    && forall i: nat | i < |labels| :: StepAt(c, states, labels, i)
  }
}
