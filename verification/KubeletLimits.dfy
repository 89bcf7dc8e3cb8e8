/**
 Where the kubelet's promises end: reachable states in which a guard was not met, and
 the reason why managed pod names must be unique across namespaces.
 */
module KubeletLimits {
  import opened Common
  import opened Kubelet
  import opened KubeletSystem
  import opened KubeletNoLoss
  import opened KubeletClients

  ghost predicate Reaches(c: Cluster, s: State) {
    exists states, labels :: IsRun(c, states, labels) && states[|labels|] == s
  }

  lemma ReachesInitial(c: Cluster, s: State)
    requires Initial(s)
    ensures Reaches(c, s)
  {
    var labels: seq<Label> := [];
    assert IsRun(c, [s], labels) && [s][|labels|] == s;
  }

  lemma ReachesNext(c: Cluster, s: State, l: Label)
    requires Reaches(c, s) && Enabled(c, s, l)
    ensures Reaches(c, Apply(c, s, l))
  {
    var states, labels :| IsRun(c, states, labels) && states[|labels|] == s;
    var states', labels' := states + [Apply(c, s, l)], labels + [l];
    forall i | 0 <= i < |labels'|
      ensures StepAt(c, states', labels', i)
    {
      if i < |labels| {
        assert StepAt(c, states, labels, i);
        assert labels'[i] == labels[i] && states'[i] == states[i] && states'[i + 1] == states[i + 1];
      }
    }
    assert IsRun(c, states', labels');
  }

  // ---- a template that goes and comes back -----------------------------------------------------

  const Managed := Cluster(Config("n", 1, true, true), map["p" := "ns"])
  const Info := PodInfo("ns", "p", "rs", "n")

  function Waiting(queue: set<PodKey>, templates: set<Owner>): State {
    State(Local(map["p" := Info], map[], queue, {}, map["src" := "e"], {"n"}), 0, map[], 1, map[], [], 0, multiset{},
      templates, map[])
  }

  lemma BoundInMemory()
    ensures Reaches(Managed, Waiting({InfoKey(Info)}, {OwnerOf(Info)}))
  {
    var s0 := State(EmptyLocal(), 0, map[], 1, map[], [], 0, multiset{}, {OwnerOf(Info)}, map[]);
    ReachesInitial(Managed, s0);
    ReachesNext(Managed, s0, LHandshake("src", "e", "n"));
    var s1 := Apply(Managed, s0, LHandshake("src", "e", "n"));
    ReachesNext(Managed, s1, LBindPod("src", "e", Info));
  }

  lemma SyncIgnoresOrphan()
    ensures Enabled(Managed, Waiting({InfoKey(Info)}, {}), LSync(InfoKey(Info), AllFine, false))
    ensures Apply(Managed, Waiting({InfoKey(Info)}, {}), LSync(InfoKey(Info), AllFine, false)) == Waiting({}, {})
  {
  }

  /** A template that disappears for one sync and comes back leaves its in-memory pod forgotten. */
  lemma TemplateReturnForgetsPod()
    ensures Reaches(Managed, Waiting({}, {OwnerOf(Info)})) && !NoPodForgotten(Managed, Waiting({}, {OwnerOf(Info)}))
  {
    var k, o := InfoKey(Info), OwnerOf(Info);
    BoundInMemory();
    ReachesNext(Managed, Waiting({k}, {o}), LTemplateRemoved(o));
    assert Apply(Managed, Waiting({k}, {o}), LTemplateRemoved(o)) == Waiting({k}, {});
    SyncIgnoresOrphan();
    ReachesNext(Managed, Waiting({k}, {}), LSync(k, AllFine, false));
    ReachesNext(Managed, Waiting({}, {}), LTemplateAdded(o));
    assert Apply(Managed, Waiting({}, {}), LTemplateAdded(o)) == Waiting({}, {o});
    assert InMemNeeds(Managed, Waiting({}, {o}).local, {o}, map[], "p") && !InMemTracked(Waiting({}, {o}), k);
  }

  // ---- a node that is handed over --------------------------------------------------------------

  const Guest := PodInfo("ns", "p", "rs", "m")
  const Apart := map["n" := "a", "m" := "b"]
  const Together := map["n" := "a", "m" := "a"]

  function Hosting(queue: set<PodKey>, nodes: map<string, string>): State {
    State(Local(map["p" := Guest], map[], queue, {}, map["src" := "e"], {"m"}), 0, map[], 1, map[], [], 0, multiset{},
      {OwnerOf(Guest)}, nodes)
  }

  lemma BoundToOtherNode()
    ensures Reaches(Managed, Hosting({InfoKey(Guest)}, Apart))
  {
    var s0 := State(EmptyLocal(), 0, map[], 1, map[], [], 0, multiset{}, {OwnerOf(Guest)}, Apart);
    ReachesInitial(Managed, s0);
    ReachesNext(Managed, s0, LHandshake("src", "e", "m"));
    ReachesNext(Managed, Apply(Managed, s0, LHandshake("src", "e", "m")), LBindPod("src", "e", Guest));
  }

  /** A pod synced while its node is another kubelet's stays forgotten when the node is delegated to this one. */
  lemma DelegationForgetsPod()
    ensures Reaches(Managed, Hosting({}, Together)) && !NoPodForgotten(Managed, Hosting({}, Together))
  {
    var k := InfoKey(Guest);
    BoundToOtherNode();
    ReachesNext(Managed, Hosting({k}, Apart), LSync(k, AllFine, false));
    assert Apply(Managed, Hosting({k}, Apart), LSync(k, AllFine, false)) == Hosting({}, Apart);
    ReachesNext(Managed, Hosting({}, Apart), LNodesChanged(Together));
    var s := Hosting({}, Together);
    assert Apply(Managed, Hosting({}, Apart), LNodesChanged(Together)) == s;
    assert InMemNeeds(Managed, s.local, s.templates, Together, "p") && !InMemTracked(s, k);
  }

  // ---- a lifecycle label that is taken away ----------------------------------------------------

  const Plain := Cluster(Config("n", 1, true, true), map[])
  const Web := Pod(1, "ns", "web", "n", true, false, false, false, false, false)
  const Stripped := Web.(customLifecycle := false)
  const WebKey := PodKey("ns", "web")

  function Serving(local: Local, objects: map<PodKey, Pod>): State {
    State(local, 0, objects, 2, objects, [], 0, multiset{}, {}, map[])
  }

  const Queued := Local(map[], map[], {WebKey}, {}, map[], {})
  const Timed := Local(map[], map[WebKey := 1], {}, {WebKey}, map[], {})

  /** A write to the only object, delivered and handled before anything else happens. */
  lemma WrittenAndHandled(s: State, s1: State, local: Local, before: map<PodKey, Pod>, after: Option<Pod>)
    requires s1.events == [Event(WebKey, Lookup(before, WebKey), after)] && s1.delivered == 0
    requires s1.local == s.local && s1.now == 0 && s1.nextUid == 2 && s1.exposing == multiset{}
    requires s1.templates == {} && s1.nodes == map[]
    requires s1.store == before && s1.api == Store(before, WebKey, after)
    requires local == HandleNotice(s.local, Filtered(s1.events[0]))
    requires Reaches(Plain, s1)
    ensures Reaches(Plain, Serving(local, Store(before, WebKey, after)))
  {
    ReachesNext(Plain, s1, LDeliver);
    ReachesNext(Plain, Apply(Plain, s1, LDeliver), LHandle);
  }

  lemma PodIsQueued()
    ensures Reaches(Plain, Serving(Queued, map[WebKey := Web]))
  {
    var s0 := State(EmptyLocal(), 0, map[], 1, map[], [], 0, multiset{}, {}, map[]);
    ReachesInitial(Plain, s0);
    ReachesNext(Plain, s0, LApiCreate(Web));
    WrittenAndHandled(s0, Apply(Plain, s0, LApiCreate(Web)), Queued, map[], Some(Web));
  }

  lemma LabelIsStripped()
    ensures Reaches(Plain, Serving(Queued, map[WebKey := Stripped]))
  {
    PodIsQueued();
    var s := Serving(Queued, map[WebKey := Web]);
    ReachesNext(Plain, s, LApiUpdate(Stripped));
    WrittenAndHandled(s, Apply(Plain, s, LApiUpdate(Stripped)), Queued, map[WebKey := Web], Some(Stripped));
  }

  lemma SyncStartsTimer()
    ensures Reaches(Plain, Serving(Timed, map[WebKey := Stripped]))
  {
    LabelIsStripped();
    var s := Serving(Queued, map[WebKey := Stripped]);
    ReachesNext(Plain, s, LSync(WebKey, AllFine, false));
    assert Apply(Plain, s, LSync(WebKey, AllFine, false)) == Serving(Timed, map[WebKey := Stripped]);
  }

  /**
   A pod whose lifecycle label is taken away while its key is queued gets a timer that nothing
   clears any more: in the end neither object, nor expose, nor event is left.
   */
  lemma LabelLossLeaksTimer()
    ensures Reaches(Plain, Serving(Timed, map[])) && !TimerOk(Serving(Timed, map[]), WebKey)
  {
    SyncStartsTimer();
    var s := Serving(Timed, map[WebKey := Stripped]);
    ReachesNext(Plain, s, LApiRemove(WebKey));
    WrittenAndHandled(s, Apply(Plain, s, LApiRemove(WebKey)), Timed, map[WebKey := Stripped], None);
  }

  // ---- a node that no handshake named ----------------------------------------------------------

  lemma WebIsTimed()
    ensures Reaches(Plain, Serving(Timed, map[WebKey := Web]))
  {
    PodIsQueued();
    var s := Serving(Queued, map[WebKey := Web]);
    ReachesNext(Plain, s, LSync(WebKey, AllFine, false));
    assert Apply(Plain, s, LSync(WebKey, AllFine, false)) == Serving(Timed, map[WebKey := Web]);
  }

  const Due := Local(map[], map[WebKey := 1], {WebKey}, {}, map[], {})

  /** An API pod scheduled to a node that no handshake ever named brings the kubelet down once its time has come. */
  lemma ReadyWriteWithoutHandshakeCrashes()
    ensures var s := Serving(Due, map[WebKey := Web]).(now := 1);
      Reaches(Plain, s) && Crashes(Plain, s, LSync(WebKey, AllFine, true))
  {
    WebIsTimed();
    var s := Serving(Timed, map[WebKey := Web]);
    ReachesNext(Plain, s, LTick(1));
    ReachesNext(Plain, s.(now := 1), LRequeue(WebKey));
    assert Apply(Plain, s.(now := 1), LRequeue(WebKey)) == Serving(Due, map[WebKey := Web]).(now := 1);
  }

  const Elsewhere := Local(map["p" := Info], map[], {InfoKey(Info)}, {}, map["src" := "e"], {"x"})

  function Bare(local: Local, exposing: multiset<Pod>): State {
    State(local, 0, map[], 1, map[], [], 0, exposing, {OwnerOf(Info)}, map[])
  }

  lemma BoundWithoutHandshake()
    ensures Reaches(Managed, Bare(Elsewhere, multiset{}))
  {
    var s0 := Bare(EmptyLocal(), multiset{});
    ReachesInitial(Managed, s0);
    ReachesNext(Managed, s0, LHandshake("src", "e", "x"));
    ReachesNext(Managed, Apply(Managed, s0, LHandshake("src", "e", "x")), LBindPod("src", "e", Info));
  }

  /** So does a pod bound, under a valid epoch, to a node that the handshake did not name, as soon as it is exposed. */
  lemma ExposeWithoutHandshakeCrashes()
    ensures var k, p := InfoKey(Info), AsPersistentPod(Info);
      var s := Bare(Elsewhere.(timers := map[k := 1], queue := {}, delayed := {k}), multiset{p});
      Reaches(Managed, s) && Crashes(Managed, s, LExpose(p, Created))
  {
    var k := InfoKey(Info);
    BoundWithoutHandshake();
    ReachesNext(Managed, Bare(Elsewhere, multiset{}), LSync(k, AllFine, false));
    assert Apply(Managed, Bare(Elsewhere, multiset{}), LSync(k, AllFine, false)) ==
      Bare(Elsewhere.(timers := map[k := 1], queue := {}, delayed := {k}), multiset{AsPersistentPod(Info)});
  }

  // ---- one name in two namespaces --------------------------------------------------------------

  /**
   The cache is indexed by name alone: syncing a vanished pod of one namespace while a managed pod
   of the same name waits in another exposes that other pod, under the wrong timer.
   */
  lemma SharedNameExposesOtherPod(cfg: Config, l: Local, v: View, key: PodKey, now: Time)
    requires key !in v.pods && key.name in l.inMem && key !in l.timers
    requires l.inMem[key.name].name == key.name && l.inMem[key.name].ns != key.ns
    requires OwnerOf(l.inMem[key.name]) in v.templates
    requires IsResponsibleFor(cfg.self, v.nodes, l.inMem[key.name].node).Ours?
    ensures var r := SyncPod(cfg, l, v, key, now, AllFine);
      && r.effect.Expose? && KeyOf(r.effect.pod) != key
      && key in r.local.timers && Lookup(r.local.timers, KeyOf(r.effect.pod)) == Lookup(l.timers, KeyOf(r.effect.pod))
  {
  }
}
