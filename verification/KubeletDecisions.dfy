/**
 What one event handler and one sync of the kubelet do, and exactly when, said on the fields of the
 objects alone.
 */
module KubeletDecisions {
  import opened Common
  import opened Kubelet

  // ---- whose node ------------------------------------------------------------------------------

  /** The node is another kubelet's: none at all, or listed like our own with a different service address. */
  predicate Elsewhere(self: string, nodes: map<string, string>, node: string) {
    node == "" || (node != self && self in nodes && node in nodes && nodes[self] != nodes[node])
  }

  /** The node is our own, or listed like our own with the same service address. */
  predicate Here(self: string, nodes: map<string, string>, node: string) {
    node != "" && (node == self || (self in nodes && node in nodes && nodes[self] == nodes[node]))
  }

  /** The node is not our own, and it or our own is not listed. */
  predicate Unlisted(self: string, nodes: map<string, string>, node: string) {
    node != "" && node != self && (self !in nodes || node !in nodes)
  }

  lemma ResponsibilityIff(self: string, nodes: map<string, string>, node: string)
    ensures IsResponsibleFor(self, nodes, node).Foreign? <==> Elsewhere(self, nodes, node)
    ensures IsResponsibleFor(self, nodes, node).Ours? <==> Here(self, nodes, node)
    ensures IsResponsibleFor(self, nodes, node).LookupFailed? <==> Unlisted(self, nodes, node)
  {
  }

  // ---- one event -------------------------------------------------------------------------------

  /** An object that handlers look at: bound to a node, with the lifecycle label. */
  predicate Seen(p: Option<Pod>) { p.Some? && p.value.node != "" && p.value.customLifecycle }

  /** The names whose in-memory records an event supersedes. */
  function Superseded(e: Event): set<string> {
    if Seen(e.after) then
      if e.after.value.managed && e.after.value.persistent then {e.after.value.name} else {}
    else if Seen(e.before) && e.before.value.managed && e.before.value.persistent then {e.before.value.name}
    else {}
  }

  /** A seen object is enqueued, one that is seen no more loses its timer, and either supersedes its record. */
  lemma HandlerDoes(l: Local, e: Event)
    ensures var l' := HandleNotice(l, Filtered(e));
      && l'.queue == l.queue + (if Seen(e.after) then {PodKey(e.after.value.ns, e.after.value.name)} else {})
      && l'.timers == l.timers -
           (if !Seen(e.after) && Seen(e.before) then {PodKey(e.before.value.ns, e.before.value.name)} else {})
      && l'.inMem == l.inMem - Superseded(e)
      && l'.delayed == l.delayed && l'.epochs == l.epochs && l'.clients == l.clients
  {
  }

  // ---- one sync --------------------------------------------------------------------------------

  /** The record that a sync of `key` falls back on when the informer does not show the pod. */
  predicate Recorded(l: Local, v: View, key: PodKey) { key !in v.pods && key.name in l.inMem }

  function TemplateOf(i: PodInfo): Owner { Owner(i.ns, i.owner) }

  /** The pod that a sync of `key` is about, if its lookups succeed. */
  function Subject(l: Local, v: View, key: PodKey, o: Outcome): Option<Pod> {
    if o.listerFails then None
    else if key in v.pods then Some(v.pods[key])
    else if Recorded(l, v, key) && !o.templateFails && TemplateOf(l.inMem[key.name]) in v.templates then
      var i := l.inMem[key.name];
      Some(Pod(0, i.ns, i.name, i.node, true, true, true, false, false, false))
    else None
  }

  /** The subject is ours and waits to be made ready. */
  predicate Waits(cfg: Config, v: View, p: Option<Pod>) {
    && p.Some? && Here(cfg.self, v.nodes, p.value.node)
    && !p.value.deleting && !p.value.terminated && !p.value.ready
  }

  /** When the pod may become ready: as its timer says, or a delay from now if it has none. */
  function DueAt(cfg: Config, l: Local, key: PodKey, now: Time): Time {
    if key in l.timers then l.timers[key] else now + cfg.readyDelay
  }

  /** A ready write is due for an API pod. */
  predicate WriteDue(cfg: Config, l: Local, v: View, key: PodKey, now: Time, o: Outcome) {
    Waits(cfg, v, Subject(l, v, key, o)) && key in v.pods && DueAt(cfg, l, key, now) <= now
  }

  /** What a sync asks of the outside, in both directions. */
  lemma EffectIff(cfg: Config, l: Local, v: View, key: PodKey, now: Time, o: Outcome)
    ensures var p, e := Subject(l, v, key, o), SyncPod(cfg, l, v, key, now, o).effect;
      && (e.MarkReady? <==> WriteDue(cfg, l, v, key, now, o) && (cfg.simulate || !o.refStatusFails))
      && (e.Expose? <==> Waits(cfg, v, p) && key !in v.pods && key !in l.timers)
      && (e.RequestDelete? <==> p.Some? && Here(cfg.self, v.nodes, p.value.node) && p.value.deleting)
      && (e.MarkReady? || e.Expose? ==> e.pod == p.value)
      && (e.RequestDelete? ==> e.key == PodKey(p.value.ns, p.value.name))
  {
  }

  /**
   A sync fails if and only if one of the calls it makes fails or a node it needs is not listed, and puts
   its key off by itself exactly while the pod waits for its time.
   */
  lemma RetriedIff(cfg: Config, l: Local, v: View, key: PodKey, now: Time, o: Outcome)
    ensures var p, r := Subject(l, v, key, o), SyncPod(cfg, l, v, key, now, o);
      && (!r.ok <==>
            || o.listerFails
            || (Recorded(l, v, key) && o.templateFails)
            || (p.Some? && Unlisted(cfg.self, v.nodes, p.value.node))
            || (p.Some? && Here(cfg.self, v.nodes, p.value.node) && p.value.deleting && o.deleteFails)
            || (WriteDue(cfg, l, v, key, now, o) && ((!cfg.simulate && o.refStatusFails) || o.markFails)))
      && r.local.delayed == l.delayed + (if Waits(cfg, v, p) && now < DueAt(cfg, l, key, now) then {key} else {})
  {
  }

  lemma WaitingTimer(cfg: Config, l: Local, key: PodKey, pod: Pod, isInMem: bool, now: Time, o: Outcome)
    ensures SyncWaiting(cfg, l, key, pod, isInMem, now, o).local.timers == l.timers[key := DueAt(cfg, l, key, now)]
  {
  }

  /** The timer of a waiting pod runs to its due time; it is cleared once the pod is deleted, finished or ready. */
  lemma TimerIs(cfg: Config, l: Local, v: View, key: PodKey, now: Time, o: Outcome)
    ensures var p := Subject(l, v, key, o);
      SyncPod(cfg, l, v, key, now, o).local.timers ==
        if Waits(cfg, v, p) then l.timers[key := DueAt(cfg, l, key, now)]
        else if p.None? || !Here(cfg.self, v.nodes, p.value.node) || (p.value.deleting && o.deleteFails) then l.timers
        else l.timers - {key}
  {
    var p := Subject(l, v, key, o);
    if p.Some? { WaitingTimer(cfg, l, key, p.value, key !in v.pods, now, o); }
  }

  function Requeued(r: SyncResult, q: set<PodKey>): SyncResult { r.(local := r.local.(queue := q)) }

  lemma WaitingIgnoresQueue(cfg: Config, l: Local, q: set<PodKey>, key: PodKey, pod: Pod,
      isInMem: bool, now: Time, o: Outcome)
    ensures SyncWaiting(cfg, l.(queue := q), key, pod, isInMem, now, o) ==
            Requeued(SyncWaiting(cfg, l, key, pod, isInMem, now, o), q)
  {
  }

  lemma ResolvedIgnoresQueue(cfg: Config, l: Local, q: set<PodKey>, nodes: map<string, string>, key: PodKey, pod: Pod,
      isInMem: bool, now: Time, o: Outcome)
    ensures SyncResolved(cfg, l.(queue := q), nodes, key, pod, isInMem, now, o) ==
            Requeued(SyncResolved(cfg, l, nodes, key, pod, isInMem, now, o), q)
  {
    WaitingIgnoresQueue(cfg, l, q, key, pod, isInMem, now, o);
  }

  /** A sync does not look at the queue. */
  lemma SyncIgnoresQueue(cfg: Config, l: Local, q: set<PodKey>, v: View, key: PodKey, now: Time, o: Outcome)
    ensures SyncPod(cfg, l.(queue := q), v, key, now, o) == Requeued(SyncPod(cfg, l, v, key, now, o), q)
  {
    if key in v.pods {
      ResolvedIgnoresQueue(cfg, l, q, v.nodes, key, v.pods[key], false, now, o);
    } else if key.name in l.inMem {
      ResolvedIgnoresQueue(cfg, l, q, v.nodes, key, AsPersistentPod(l.inMem[key.name]), true, now, o);
    }
  }

  /** Taking an item off the queue, syncing it, and putting it off on failure. */
  lemma ItemDoes(cfg: Config, l: Local, v: View, key: PodKey, now: Time, o: Outcome)
    ensures var r, r' := SyncPod(cfg, l, v, key, now, o), ProcessItem(cfg, l, v, key, now, o);
      && r'.effect == r.effect && r'.ok == r.ok
      && r'.local == r.local.(
           queue := l.queue - {key}, delayed := r.local.delayed + (if r.ok then {} else {key}))
  {
    SyncIgnoresQueue(cfg, l, l.queue - {key}, v, key, now, o);
  }
}
