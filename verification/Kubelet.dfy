/**
 The custom kubelet: cmd/kubelet/kubelet.go and cmd/kubelet/kubedirect.go.

 The functions give one call of each entry point as a function of the kubelet's
 own state (`Local`), of what the listers show (`View`) and of the outcome of the
 remote calls it makes (`Outcome`). Class `KubedirectServer` holds the same state
 in fields and updates it in place, and is proved against the functions.
 */
module Kubelet {
  import opened Common

  type Time = int

  /** `PendingPod`: the work queue item, and (as "namespace/name") the key of the timer map. */
  datatype PodKey = PodKey(ns: string, name: string)

  /** The owner of a managed pod, under which its template pod is looked up. */
  datatype Owner = Owner(ns: string, name: string)

  /** `kdctx.PodInfo`: a pod that so far exists only in this kubelet's memory. */
  datatype PodInfo = PodInfo(ns: string, name: string, owner: string, node: string)

  /** The parts of a pod object that the kubelet looks at. `uid == 0` marks an object never written to the API. */
  datatype Pod = Pod(
    uid: nat, ns: string, name: string, node: string,
    customLifecycle: bool, managed: bool, persistent: bool,
    deleting: bool, terminated: bool, ready: bool)

  datatype Config = Config(self: string, readyDelay: int, simulate: bool, patch: bool)

  /** The kubelet's own state. `epochs` is what `ServerHub` remembers per source, `clients` the nodes with a client. */
  datatype Local = Local(
    inMem: map<string, PodInfo>,
    timers: map<PodKey, Time>,
    queue: set<PodKey>,
    delayed: set<PodKey>,
    epochs: map<string, string>,
    clients: set<string>)

  /** What the pod and node listers show. */
  datatype View = View(pods: map<PodKey, Pod>, templates: set<Owner>, nodes: map<string, string>)

  function KeyOf(p: Pod): PodKey { PodKey(p.ns, p.name) }

  function InfoKey(i: PodInfo): PodKey { PodKey(i.ns, i.name) }

  function OwnerOf(i: PodInfo): Owner { Owner(i.ns, i.owner) }

  function EmptyLocal(): Local { Local(map[], map[], {}, {}, map[], {}) }

  // ---- pure checks -----------------------------------------------------------------------------

  predicate EnqueueFilter(p: Pod) { p.node != "" && p.customLifecycle }

  /** `kdutil.IsPodActive`: not finished and not being deleted. */
  predicate IsPodActive(p: Pod) { !p.terminated && !p.deleting }

  datatype Responsibility = Ours | Foreign | LookupFailed

  /** A node without the service-address annotation is entered in `nodes` with "". */
  function IsResponsibleFor(self: string, nodes: map<string, string>, node: string): Responsibility {
    if node == "" then Foreign
    else if node == self then Ours
    else if self !in nodes || node !in nodes then LookupFailed
    else if nodes[self] == nodes[node] then Ours
    else Foreign
  }

  /**
   Responsibility is a matter of the service address: kubelets behind one address give the same
   verdict on every known node, and kubelets behind different addresses never claim the same one.
   */
  lemma ResponsibilityFollowsService(a: string, b: string, nodes: map<string, string>, node: string)
    requires a in nodes && b in nodes && node in nodes && node != ""
    ensures nodes[a] == nodes[b] ==> IsResponsibleFor(a, nodes, node) == IsResponsibleFor(b, nodes, node)
    ensures IsResponsibleFor(a, nodes, node).Ours? && IsResponsibleFor(b, nodes, node).Ours? ==> nodes[a] == nodes[b]
    ensures IsResponsibleFor(node, nodes, node).Ours?
  {
  }

  /** `AsPersistentPod`: the object built from the in-memory record and its template. */
  function AsPersistentPod(i: PodInfo): Pod {
    Pod(0, i.ns, i.name, i.node, true, true, true, false, false, false)
  }

  // ---- informer events -------------------------------------------------------------------------

  /** One change of one API object, as the informer reports it. */
  datatype Event = Event(key: PodKey, before: Option<Pod>, after: Option<Pod>)

  /** What `FilteringResourceEventHandler` makes of a change: an object and the `isDelete` flag. */
  datatype Notice = NoNotice | Notice(pod: Pod, isDelete: bool)

  function Filtered(e: Event): Notice {
    if e.after.Some? && EnqueueFilter(e.after.value) then Notice(e.after.value, false)
    else if e.before.Some? && EnqueueFilter(e.before.value) then Notice(e.before.value, true)
    else NoNotice
  }

  function HandlePodEvent(l: Local, pod: Pod, isDelete: bool): Local {
    if !EnqueueFilter(pod) then l
    else
      var key := KeyOf(pod);
      var l1 := if !isDelete then l.(queue := l.queue + {key}) else l.(timers := l.timers - {key});
      if pod.managed && pod.persistent then l1.(inMem := l1.inMem - {pod.name}) else l1
  }

  function HandleNotice(l: Local, n: Notice): Local {
    match n
    case NoNotice => l
    case Notice(pod, isDelete) => HandlePodEvent(l, pod, isDelete)
  }

  // ---- RPC handlers ----------------------------------------------------------------------------

  datatype BindReply = TemplateMissing | EpochMismatch | Duplicate | Accepted

  function BindReplyFor(l: Local, templates: set<Owner>, source: string, epoch: string, info: PodInfo): BindReply {
    if OwnerOf(info) !in templates then TemplateMissing
    else if Lookup(l.epochs, source) != Some(epoch) then EpochMismatch
    else if info.name in l.inMem then Duplicate
    else Accepted
  }

  function BindPod(l: Local, templates: set<Owner>, source: string, epoch: string, info: PodInfo): Local {
    if BindReplyFor(l, templates, source, epoch, info).Accepted?
    then l.(inMem := l.inMem[info.name := info], queue := l.queue + {InfoKey(info)})
    else l
  }

  /** A handshake also sees to it that there is a client for the node it names. */
  function Handshake(l: Local, source: string, epoch: string, node: string): Local {
    l.(epochs := l.epochs[source := epoch], clients := l.clients + {node})
  }

  /** The handler for the deletion of a node object. */
  function NodeDeleted(l: Local, node: string): Local { l.(clients := l.clients - {node}) }

  /** Exposing a pod and marking it ready go through the client of its node; without one the call panics. */
  predicate HasClient(l: Local, pod: Pod) { pod.node in l.clients }

  /** `AsPodInfosProtoOnNode`. */
  function Snapshot(l: Local, node: string): set<PodInfo> {
    set n | n in l.inMem && l.inMem[n].node == node :: l.inMem[n]
  }

  // ---- SyncPod ---------------------------------------------------------------------------------

  /** How the calls that SyncPod makes to other components turn out. */
  datatype Outcome = Outcome(
    listerFails: bool, templateFails: bool, deleteFails: bool, refStatusFails: bool, markFails: bool)

  const AllFine := Outcome(false, false, false, false, false)

  /** What a sync asks of the outside world. */
  datatype Effect = NoEffect | Expose(pod: Pod) | RequestDelete(key: PodKey) | MarkReady(pod: Pod)

  datatype SyncResult = SyncResult(local: Local, effect: Effect, ok: bool)

  function SyncPod(cfg: Config, l: Local, v: View, key: PodKey, now: Time, o: Outcome): SyncResult {
    if o.listerFails then SyncResult(l, NoEffect, false)
    else if key in v.pods then SyncResolved(cfg, l, v.nodes, key, v.pods[key], false, now, o)
    else if key.name !in l.inMem then SyncResult(l, NoEffect, true)
    else if o.templateFails then SyncResult(l, NoEffect, false)
    else if OwnerOf(l.inMem[key.name]) !in v.templates then SyncResult(l, NoEffect, true)
    else SyncResolved(cfg, l, v.nodes, key, AsPersistentPod(l.inMem[key.name]), true, now, o)
  }

  function SyncResolved(cfg: Config, l: Local, nodes: map<string, string>,
                        key: PodKey, pod: Pod, isInMem: bool, now: Time, o: Outcome): SyncResult {
    match IsResponsibleFor(cfg.self, nodes, pod.node)
    case LookupFailed => SyncResult(l, NoEffect, false)
    case Foreign => SyncResult(l, NoEffect, true)
    case Ours =>
      if pod.deleting then
        if o.deleteFails then SyncResult(l, RequestDelete(KeyOf(pod)), false)
        else SyncResult(l.(timers := l.timers - {key}), RequestDelete(KeyOf(pod)), true)
      else if !IsPodActive(pod) || pod.ready then
        SyncResult(l.(timers := l.timers - {key}), NoEffect, true)
      else
        SyncWaiting(cfg, l, key, pod, isInMem, now, o)
  }

  function SyncWaiting(cfg: Config, l: Local, key: PodKey, pod: Pod, isInMem: bool, now: Time, o: Outcome): SyncResult {
    var isFresh := key !in l.timers;
    var readyTime := if isFresh then now + cfg.readyDelay else l.timers[key];
    var l1 := l.(timers := l.timers[key := readyTime]);
    var effect := if isFresh && isInMem then Expose(pod) else NoEffect;
    if now < readyTime then SyncResult(l1.(delayed := l1.delayed + {key}), effect, true)
    else if isInMem then SyncResult(l1, effect, true)
    else if !cfg.simulate && o.refStatusFails then SyncResult(l1, NoEffect, false)
    else SyncResult(l1, MarkReady(pod), !o.markFails)
  }

  /** `processNextItem` on `key`: take it off the queue, sync it, put it back with a delay on error. */
  function ProcessItem(cfg: Config, l: Local, v: View, key: PodKey, now: Time, o: Outcome): SyncResult {
    var r := SyncPod(cfg, l.(queue := l.queue - {key}), v, key, now, o);
    if r.ok then r else r.(local := r.local.(delayed := r.local.delayed + {key}))
  }

  // ---- the server object -----------------------------------------------------------------------

  class KubedirectServer {
    const cfg: Config
    var inMemCache: map<string, PodInfo>
    var readyTimers: map<PodKey, Time>
    var queue: set<PodKey>
    var delayed: set<PodKey>
    var epochs: map<string, string>
    var clientPool: set<string>

    ghost function State(): Local reads this {
      Local(inMemCache, readyTimers, queue, delayed, epochs, clientPool)
    }

    constructor (cfg: Config)
      ensures this.cfg == cfg && State() == EmptyLocal()
    {
      this.cfg := cfg;
      inMemCache, readyTimers, queue, delayed, epochs, clientPool := map[], map[], {}, {}, map[], {};
    }

    method OnEvent(e: Event)
      modifies this
      ensures State() == HandleNotice(old(State()), Filtered(e))
    {
      if e.after.Some? && EnqueueFilter(e.after.value) {
        OnPod(e.after.value, false);
      } else if e.before.Some? && EnqueueFilter(e.before.value) {
        OnPod(e.before.value, true);
      }
    }

    method OnPod(pod: Pod, isDelete: bool)
      modifies this
      ensures State() == HandlePodEvent(old(State()), pod, isDelete)
    {
      if !EnqueueFilter(pod) {
        return;
      }
      var pending := KeyOf(pod);
      if !isDelete {
        queue := queue + {pending};
      } else {
        readyTimers := readyTimers - {pending};
      }
      if pod.managed && pod.persistent {
        inMemCache := inMemCache - {pod.name};
      }
    }

    method OnBindPod(templates: set<Owner>, source: string, epoch: string, info: PodInfo) returns (reply: BindReply)
      modifies this
      ensures reply == BindReplyFor(old(State()), templates, source, epoch, info)
      ensures State() == BindPod(old(State()), templates, source, epoch, info)
    {
      if OwnerOf(info) !in templates {
        return TemplateMissing;
      }
      if source !in epochs || epochs[source] != epoch {
        return EpochMismatch;
      }
      if info.name in inMemCache {
        return Duplicate;
      }
      inMemCache := inMemCache[info.name := info];
      queue := queue + {InfoKey(info)};
      return Accepted;
    }

    method OnHandshake(source: string, epoch: string, destination: string) returns (pods: set<PodInfo>)
      modifies this
      ensures State() == Handshake(old(State()), source, epoch, destination)
      ensures pods == Snapshot(State(), destination)
    {
      if destination !in clientPool {
        clientPool := clientPool + {destination};
      }
      epochs := epochs[source := epoch];
      pods := set n | n in inMemCache && inMemCache[n].node == destination :: inMemCache[n];
    }

    method OnNodeDeleted(node: string)
      modifies this
      ensures State() == NodeDeleted(old(State()), node)
    {
      clientPool := clientPool - {node};
    }

    method Sync(v: View, key: PodKey, now: Time, o: Outcome) returns (effect: Effect, ok: bool)
      modifies this
      ensures SyncResult(State(), effect, ok) == SyncPod(cfg, old(State()), v, key, now, o)
    {
      var pod: Pod, isInMem: bool;
      if o.listerFails {
        return NoEffect, false;
      } else if key in v.pods {
        pod, isInMem := v.pods[key], false;
      } else {
        if key.name !in inMemCache {
          return NoEffect, true;
        }
        var info := inMemCache[key.name];
        if o.templateFails {
          return NoEffect, false;
        } else if OwnerOf(info) !in v.templates {
          return NoEffect, true;
        }
        pod, isInMem := AsPersistentPod(info), true;
      }

      var responsible := IsResponsibleFor(cfg.self, v.nodes, pod.node);
      if responsible.LookupFailed? {
        return NoEffect, false;
      } else if responsible.Foreign? {
        return NoEffect, true;
      }

      if pod.deleting {
        if o.deleteFails {
          return RequestDelete(KeyOf(pod)), false;
        }
        readyTimers := readyTimers - {key};
        return RequestDelete(KeyOf(pod)), true;
      }
      if !IsPodActive(pod) || pod.ready {
        readyTimers := readyTimers - {key};
        return NoEffect, true;
      }

      effect, ok := Wait(key, pod, isInMem, now, o);
    }

    method Wait(key: PodKey, pod: Pod, isInMem: bool, now: Time, o: Outcome) returns (effect: Effect, ok: bool)
      modifies this
      ensures SyncResult(State(), effect, ok) == SyncWaiting(cfg, old(State()), key, pod, isInMem, now, o)
    {
      effect := NoEffect;
      var isFresh := key !in readyTimers;
      if isFresh {
        readyTimers := readyTimers[key := now + cfg.readyDelay];
        if isInMem {
          effect := Expose(pod);
        }
      }
      ghost var timers := if isFresh then old(readyTimers)[key := now + cfg.readyDelay]
                          else old(readyTimers)[key := old(readyTimers)[key]];
      assert readyTimers == timers;
      if 0 < readyTimers[key] - now {
        delayed := delayed + {key};
        return effect, true;
      }
      if isInMem {
        return effect, true;
      }
      if !cfg.simulate && o.refStatusFails {
        return NoEffect, false;
      }
      return MarkReady(pod), !o.markFails;
    }

    method ProcessNextItem(v: View, key: PodKey, now: Time, o: Outcome) returns (effect: Effect)
      requires key in queue
      modifies this
      ensures var r := ProcessItem(cfg, old(State()), v, key, now, o);
              State() == r.local && effect == r.effect
    {
      queue := queue - {key};
      var ok;
      effect, ok := Sync(v, key, now, o);
      if !ok {
        delayed := delayed + {key};
      }
    }
  }
}
