# Kubedirect bench: a verified model

A Dafny model of the protocols inside the Kubedirect benchmark harness, with proofs about whole runs of them.
`dafny verify dfyconfig.toml` checks everything. There are four parts.

**The custom kubelet** reconciles two sources of truth: pods delivered by RPC into an in-memory cache, and API pods
seen through an informer. `Kubelet` holds the entry points, once as functions of the kubelet's state and once as class
`KubedirectServer`, which updates its fields in place and is proved against the functions; `KubeletDecisions` says what
one handler and one sync do in terms of the fields alone. `KubeletSystem` puts them
into a transition system with RPC callers, API writers, the informer (store update and handler are separate steps),
queue workers, delayed requeues, background exposes and the clock, in any order. The results:

- No pod is forgotten and no timer left behind, with exact causes (`KubeletForgotten`): in any run a pod that needs
  work is untracked *if and only if* an earlier sync returned without requeueing it, for want of its template or because
  its node was another kubelet's, and nothing has drawn attention to it since; and a timer is left behind *if and only
  if* a sync started it for an API pod whose lifecycle label had gone. `KubeletLimits` reaches such states: a template
  pod that is gone during one sync and comes back, a node handed over to this kubelet after its pods were synced, and a
  label taken away from a queued pod. `DisciplinedRun` names a deployment discipline under which no pod is forgotten.
- A handshake snapshot is exactly the set of accepted and not yet observed pods, stale epochs are fenced off, a pod is
  exposed twice only after its API object was seen, and no pod is marked ready early (`KubeletHistory`).
- There is one dead end (`KubeletProgress`): from every state in which no pod is forgotten, the kubelet's own steps can
  make a waiting pod ready *if and only if* there is a client for its node, and they can always remove a pod whose
  deletion was requested. Without a client the ready write or the expose brings the process down; `KubeletClients` proves
  that this happens *if and only if* no handshake has named the pod's node since that node was last deleted, and
  `KubeletLimits` reaches it in both ways.

**The autoscaler**: the panic/stable state machine refines a specification over its complete history, more load never
yields fewer pods in a comparison of two whole runs, and the concurrency integrator reports the exact time integral, in
whatever order clock readings come. A target with requests is left at zero only in exactly described ways, one of them a
race: a request that arrives between the observation and the publication of a reconcile can see the old scale and
not queue its target, which is then published as zero (`OvertakenReconcileStrands`). Each of the ways has its run.

**The gateway**: under every interleaving of relay, dispatch and endpoint reconciliation, requests and tokens are
conserved, live endpoints keep their capacity, and reconciliation converges; the shared connection pool never hands a
connection to more than 50 executions.

**Trace translation and sharding**: the nested loop computes the specified arrivals and yields a sorted trace, and the
shards are an order-preserving partition with unique request identifiers.

## Conventions

- Time is an integer (kubelet, decider) or a real number of seconds (integrator); zero stands for the zero `time.Time`.
  float64 is `real`.
- One `SyncPod` call, one RPC and one event-handler call are one step each. The work queue is a set plus a set of delayed keys;
  a delayed key may come back at any time. Timers are indexed by a namespace and name pair instead of the joined string.
- `ServerHub.Lock(source, epoch)` installs the epoch and `RLock` fails on any other one; `GetOrCreate` is atomic.
- Managed pod names are unique: `Cluster.home` fixes their namespaces. API objects under such names carry the managed,
  persistent and lifecycle labels and a node. `AsPersistentPod` yields an active, unready object without a deletion timestamp.
- Exposes and ready writes go through the client of the pod's node. A call that finds none panics and ends the process, and
  with it the run; what a restarted kubelet does is another run.
- API writes produce informer events in order. An API call that reports an error may still have taken effect.
- A template is known to the kubelet when its lister shows it; `Outcome` says how the other calls of a sync turn out.
- The relay goroutine of a target, its ticker and the worker on its key interleave: `ReqIn` counts, activates and
  checks the scale in separate steps, and a reconcile lists, observes and publishes in separate steps. Each target has
  one relay goroutine, and the work queue gives a key to one worker at a time. That more requests never leave than
  arrived is `GatewayInvariants.ConcurrencyIsOutstanding`.
- The delay window returns the largest recorded value whose bucket is still valid; `live` says which are, and the one
  just recorded always is.
- Channels are unbounded queues, and a `select` with a default takes the default only if the queue is empty; one
  `Reconcile` runs at a time per dispatcher.

## Model

| member | source | states |
|---|---|---|
| `Kubelet.ResponsibilityFollowsService` | cmd/kubelet/kubelet.go:187-200 | (by cases alone) kubelets behind one service address give the same verdict on every known node, kubelets behind different addresses never claim the same node, and a node is always its own kubelet's |
| `KubeletDecisions.ResponsibilityIff` | cmd/kubelet/kubelet.go:187-200 | on the node map: a node is another kubelet's if and only if there is none or both nodes are listed with different service addresses, ours if and only if it is our own or both are listed with the same one, and undecided if and only if one of two different nodes is not listed |
| `Kubelet.KubedirectServer.constructor` | cmd/kubelet/kubelet.go:90-111 | a new server has empty caches, timers and queue, no client, and knows no epoch |
| `Kubelet.KubedirectServer.OnEvent` | cmd/kubelet/kubelet.go:113-143 | a change that leaves the filter is handled as a deletion of the old object, one that enters or stays as an add of the new one, any other not at all; whole new state |
| `Kubelet.KubedirectServer.OnPod` | cmd/kubelet/kubelet.go:202-225 | an event enqueues its key or, on deletion, clears its timer, and in both cases drops the in-memory record of a managed persistent pod; whole new state |
| `Kubelet.KubedirectServer.OnBindPod` | cmd/kubelet/kubedirect.go:68-101 | reply and whole new state: refused without a template or under another epoch, ignored as a duplicate, else cached and queued |
| `Kubelet.KubedirectServer.OnHandshake` | cmd/kubelet/kubedirect.go:51-65 | installs the epoch for its source and a client for the destination node, touches nothing else, and returns all cached pods of that node |
| `Kubelet.KubedirectServer.Sync` | cmd/kubelet/kubelet.go:227-338 | new state, requested effect and error of a sync on every path, the informer's object taking precedence over the cached one |
| `Kubelet.KubedirectServer.Wait` | cmd/kubelet/kubelet.go:296-337 | timer, expose, requeue and ready write of an active unready pod |
| `Kubelet.KubedirectServer.ProcessNextItem` | cmd/kubelet/kubelet.go:340-356 | an item leaves the queue, is synced, and comes back delayed exactly when the sync failed |
| `KubeletDecisions.HandlerDoes` | cmd/kubelet/kubelet.go:113-225 | on the fields of an event: what is bound and labelled is enqueued, what ceases to be loses its timer, either supersedes the in-memory record of a managed persistent pod, and nothing else changes |
| `KubeletDecisions.EffectIff` | cmd/kubelet/kubelet.go:227-335 | exactly when a sync marks ready, exposes or deletes, in terms of the pod it is about, its node, its timer and the outcome of its calls, and for which pod |
| `KubeletDecisions.RetriedIff` | cmd/kubelet/kubelet.go:227-335 | a sync fails if and only if a call it makes fails (lister, template, delete, reference status, ready write) or a node it needs is not listed, and puts its key off by itself exactly while the pod waits for its time |
| `KubeletDecisions.TimerIs` | cmd/kubelet/kubelet.go:268-299 | the timer after a sync: due a delay after it was started while the pod waits, cleared once the pod is deleted, finished or ready, else untouched |
| `KubeletDecisions.ItemDoes` | cmd/kubelet/kubelet.go:340-356 | an item leaves the queue and comes back delayed exactly if its sync failed; a sync does not depend on the rest of the queue |
| `KubeletInvariants.SyncSummary` | cmd/kubelet/kubelet.go:227-356 | a sync never touches the in-memory cache, the epochs or another key's timer; it exposes only cached pods that the informer does not show and that have no timer, deletes and marks only what the informer shows, and a failed sync is always requeued |
| `KubeletInvariants.NamesStep` | cmd/kubelet/kubelet.go:72-83 | every step keeps each cached, queued, stored, logged and exposing pod under its own key and namespace |
| `KubeletInvariants.LogStep` | cmd/kubelet/kubelet.go:113-143 | every step keeps the informer log consistent: its last change of a key is the API object, and an object the handlers saw is still there or its removal is still to be handled |
| `KubeletNoLoss.TimerStep` | cmd/kubelet/kubelet.go:208-308 | any one step keeps the timer of a key backed by an expose, an API object or a pending deletion event if and only if it is not a sync that starts a timer for an API object nobody would see go |
| `KubeletNoLoss.Reachable` | cmd/kubelet/kubelet.go:202-356 | names, informer log and managed timers are consistent in every reachable state |
| `KubeletNoLoss.ForgottenStep` | cmd/kubelet/kubelet.go:202-356 | any one step keeps every pod that needs work tracked if and only if it is not a template or node change that catches an idle pod |
| `KubeletNoLoss.TemplateWasThere` | cmd/kubelet/kubedirect.go:70-80 | the template of an in-memory pod was visible at some earlier point of the run |
| `KubeletNoLoss.InMemGrowsByBind` | cmd/kubelet/kubedirect.go:70-100 | an in-memory record appears only by a bind of that very pod whose template is visible |
| `KubeletNoLoss.DisciplinedRun` | cmd/kubelet/kubelet.go:202-356 | if templates do not come back and foreign nodes stay foreign, no pod is ever forgotten |
| `KubeletForgotten.UntrackedStep` | cmd/kubelet/kubelet.go:227-266 | one step leaves an in-memory pod untracked if and only if it was already and its API object is not created now, or the step is a sync that ignores it while nothing else knows of it |
| `KubeletForgotten.UntrackedIffIgnored` | cmd/kubelet/kubelet.go:237-266 | in any run an in-memory pod is untracked (not queued, delayed, announced, being exposed or in the API) if and only if an earlier sync returned without requeueing it, its template missing or its node another kubelet's, while nothing but the queue knew of it (no delayed key, event, expose or API object), and its API object has not been created since |
| `KubeletForgotten.ApiUntrackedStep` | cmd/kubelet/kubelet.go:227-266 | one step leaves an API pod with work to do untracked if and only if it was already and is not touched, or the step is a sync that ignores it for its node while nothing else is pending for it |
| `KubeletForgotten.ApiUntrackedIffIgnored` | cmd/kubelet/kubelet.go:260-266 | in any run an unready or deleting API pod is untracked if and only if an earlier sync returned because its node was another kubelet's, while neither a delayed key nor an event was pending for it, and no write or accepted bind has touched it since |
| `KubeletForgotten.NoPodForgottenIffNoneIgnored` | cmd/kubelet/kubelet.go:202-356 | in any state of any run every in-memory pod with a template and every unready or deleting API pod, on a node not another kubelet's, is tracked if and only if none of them was ignored by an earlier sync in this sense |
| `KubeletForgotten.TimerLeaksIffUnlabelled` | cmd/kubelet/kubelet.go:296-308 | in any run a timer is left behind (no expose, no API object the handlers see, no pending deletion) if and only if a sync started it for an API pod shown without the label, when the API object had none either, no expose was running and no deletion event pending, it has run since, and no object of that key got the label again |
| `KubeletForgotten.LabelledTimersDoNotLeak` | cmd/kubelet/kubelet.go:296-308 | if every sync that starts a timer for an API pod sees the lifecycle label on it, the timer is never left behind |
| `KubeletForgotten.TimersDoNotLeakIffLabelled` | cmd/kubelet/kubelet.go:208-308 | over a whole run no timer of a key is left behind if and only if no sync starts one in that situation (label gone from informer and API, no expose, no deletion event pending); timers of managed pods never are |
| `KubeletHistory.EpochHolds` | cmd/kubelet/kubedirect.go:57-58 | an epoch stays in force for its source until the next handshake of that source |
| `KubeletHistory.StaleBindIsRefused` | cmd/kubelet/kubedirect.go:81-87 | after a handshake, a bind of the same source under another epoch changes nothing until the next handshake |
| `KubeletHistory.InMemStep` | cmd/kubelet/kubelet.go:216-224 | the in-memory record of a name changes only by an accepted bind, when there was none, or by the handler for its API object |
| `KubeletHistory.AcceptedStays` | cmd/kubelet/kubedirect.go:88-100 | an accepted pod stays cached until a handler runs for its API object |
| `KubeletHistory.CachedWasAccepted` | cmd/kubelet/kubedirect.go:88-100 | every cached pod was accepted by a bind and has not been observed since |
| `KubeletHistory.SnapshotIsConsistentCut` | cmd/kubelet/kubedirect.go:51-65 | the handshake snapshot for a node is exactly the pods of that node accepted earlier and with no API event handled since, in both directions |
| `KubeletHistory.EpochIffHandshake` | cmd/kubelet/kubedirect.go:57-58 | the epoch in force for a source is that of its latest handshake, in both directions |
| `KubeletHistory.CachedIffAccepted` | cmd/kubelet/kubedirect.go:88-100 | a name is cached if and only if a bind of it was accepted and its API object has had no event handled since |
| `KubeletHistory.BindAcceptedIff` | cmd/kubelet/kubedirect.go:68-101 | over runs, a bind with a visible template, under the epoch of its source's latest handshake, of a name with no accepted and unobserved bind is cached and queued; every other changes nothing and its reply names the first condition that fails |
| `KubeletHistory.TimerDropped` | cmd/kubelet/kubelet.go:208-215 | a timer disappears only when a handler runs for the deletion of its pod, or a sync finds the API object |
| `KubeletHistory.SecondExposeAfterApiSeen` | cmd/kubelet/kubelet.go:296-303 | between two exposes of the same pod a handler ran for the deletion of its API object, or a sync found that object |
| `KubeletHistory.TimerHasStart` | cmd/kubelet/kubelet.go:296-299 | every running timer was started by an earlier sync of its key, at its due time minus the ready delay, and has run with that due time since |
| `KubeletHistory.ReferenceNeededUnlessSimulating` | cmd/kubelet/kubelet.go:318-329 | (by cases alone) a simulating kubelet is indifferent to reference pods; any other writes no status without one and retries |
| `KubeletHistory.ReadyIsNeverEarly` | cmd/kubelet/kubelet.go:227-337 | every ready write is for an informer object whose timer is due: the sync of the same key that created this timer (or this very one) was at least the ready delay earlier, and the timer has run without interruption since |
| `KubeletLimits.TemplateReturnForgetsPod` | cmd/kubelet/kubelet.go:244-249 | a reachable state with a forgotten pod: its template was gone during its only sync and came back |
| `KubeletLimits.DelegationForgetsPod` | cmd/kubelet/kubelet.go:260-266 | a reachable state with a forgotten pod: its node was delegated to this kubelet after its only sync |
| `KubeletLimits.LabelLossLeaksTimer` | cmd/kubelet/kubelet.go:183-185 | a reachable state with a timer and nothing left that would clear it: the lifecycle label was removed while the key was queued |
| `KubeletLimits.ReadyWriteWithoutHandshakeCrashes` | cmd/kubelet/kubedirect.go:241-275 | a reachable state whose next sync finds no client: an API pod on a node that no handshake named, its timer due |
| `KubeletLimits.ExposeWithoutHandshakeCrashes` | cmd/kubelet/kubedirect.go:103-124 | a reachable state whose expose finds no client: a pod bound under a valid epoch to a node that the handshake did not name |
| `KubeletLimits.SharedNameExposesOtherPod` | cmd/kubelet/kubelet.go:239-254 | why managed names must be unique: a sync of a vanished pod exposes the cached namesake of another namespace, under the wrong timer |
| `KubeletClients.ClientIffHandshaken` | cmd/kubelet/kubedirect.go:41-56 | in any run there is a client for a node if and only if a handshake named the node since its last deletion |
| `KubeletClients.CrashIffNotHandshaken` | cmd/kubelet/kubedirect.go:103-124 | in any run the next ready write or expose finds no client, and ends the process, if and only if no handshake has named the pod's node since its last deletion; no run goes on past such a call |
| `KubeletClients.ClientsStep` | cmd/kubelet/kubelet.go:149-155 | only a handshake that names the node adds its client, and only the deletion of the node removes it, whatever the step |
| `KubeletClients.ExposesNeverCrash` | cmd/kubelet/kubedirect.go:68-124 | if pods are bound only to nodes with a client, and no node is deleted while pods of it are in memory or being exposed, every in-memory and exposing pod has its client and no expose ever ends the process |
| `KubeletProgress.Drain` | cmd/kubelet/kubelet.go:113-143 | the informer can always catch up without changing API, nodes, templates or exposes, and without touching in-memory pods that have no event |
| `KubeletProgress.PodBecomesReady` | cmd/kubelet/kubelet.go:283-337 | from any state with no forgotten pod, an active unready API pod of ours whose node has a client can become ready by the kubelet's own steps |
| `KubeletProgress.TimedPodBecomesReady` | cmd/kubelet/kubelet.go:296-337 | with its timer running and a client for its node, such a pod can become ready once the clock has advanced |
| `KubeletProgress.DeletedPodGoes` | cmd/kubelet/kubelet.go:268-282 | an API pod of ours whose deletion was requested can be removed by the kubelet's own steps |
| `KubeletProgress.InMemPodReachesApi` | cmd/kubelet/kubedirect.go:103-124 | an in-memory pod of ours with a template, and with clients for its node and its running exposes, can reach the API, or is superseded by an event |
| `KubeletProgress.BoundPodBecomesReady` | cmd/kubelet/kubelet.go:227-337 | a bound pod with a client for its node that is neither in the API nor being exposed can be exposed and become ready by the kubelet's own steps |
| `KubeletProgress.ReadyIffClient` | cmd/kubelet/kubedirect.go:241-275 | an active unready API pod of ours with no event pending can become ready by the kubelet's own steps if and only if there is a client for its node |
| `KubeletProgress.BoundReadyIffClient` | cmd/kubelet/kubedirect.go:103-124 | a freshly bound pod of ours can reach the API, and become ready, by the kubelet's own steps if and only if there is a client for its node |
| `Decider.KPADecider.constructor` | pkg/autoscaler/decider/kpa.go:35-57 | a new decider is inactive, calm, at zero, with an empty delay window |
| `Decider.KPADecider.Activate` | pkg/autoscaler/decider/kpa.go:61-69 | only the first call reports true, and the decider stays active |
| `Decider.KPADecider.Reconcile` | pkg/autoscaler/decider/kpa.go:71-161 | new panic state, recorded decision and published scale of one reconcile, with and without the delay window |
| `Decider.KPADecider.Count` | pkg/autoscaler/decider/kpa.go:76-95 | computes the clamped stable and panic counts and the panic condition |
| `Decider.KPADecider.Current` | pkg/autoscaler/decider/kpa.go:141-143 | the delay window yields the largest still valid value |
| `DeciderHistory.PodsForIsLeast` | pkg/autoscaler/decider/kpa.go:89-90 | n pods carry a load at the target concurrency exactly when n is at least the computed count |
| `DeciderHistory.BoundsFollowRates` | pkg/autoscaler/decider/kpa.go:76-88 | exactly which counts the rate limits allow, an absent pod counting as one, and at least one pod when scaling from zero with requests around |
| `DeciderHistory.CountsAreLeast` | pkg/autoscaler/decider/kpa.go:89-93 | either count is the least that carries its own window's load within the bounds; where the bounds cross, the upper one wins |
| `DeciderHistory.PanicInvariant` | pkg/autoscaler/decider/kpa.go:95-108 | the panic time is the latest reconcile over the threshold, no longer than a stable window ago; outside panic the maximum is zero |
| `DeciderHistory.PanicIffSurging` | pkg/autoscaler/decider/kpa.go:95-108 | a reconcile is in panic mode if and only if some reconcile up to it was over the threshold within the stable window |
| `DeciderHistory.OverIffOverloaded` | pkg/autoscaler/decider/kpa.go:90-95 | over the threshold means that no count below the threshold multiple of the ready pods carries the panic load |
| `DeciderHistory.PanicIffOverloaded` | pkg/autoscaler/decider/kpa.go:95-108 | over observations: a reconcile is in panic mode if and only if some reconcile up to it was overloaded in that sense within the stable window |
| `DeciderHistory.PeakGrows` | pkg/autoscaler/decider/kpa.go:112-128 | in panic the remembered maximum takes in each reconcile's demand, starting afresh with each episode |
| `DeciderHistory.DecisionRefinesHistory` | pkg/autoscaler/decider/kpa.go:95-132 | outside an episode the stable count decides; inside, the decision is exactly the largest demand since the episode began |
| `DeciderHistory.DecisionRefinesLoad` | pkg/autoscaler/decider/kpa.go:89-132 | over observations: outside an episode the stable count decides, inside one the largest stable or panic count since the episode began |
| `DeciderHistory.SignalMonotone` | pkg/autoscaler/decider/kpa.go:76-95 | more load at one reconcile yields no smaller counts and no missed panic |
| `DeciderHistory.RunsRelated` | pkg/autoscaler/decider/kpa.go:95-132 | two runs stay ordered although their panic episodes start and end at different steps |
| `DeciderHistory.MoreLoadNeverFewerPods` | pkg/autoscaler/decider/kpa.go:71-132 | with the same times and ready counts and nowhere less load, every decision is at least as large |
| `DeciderHistory.MoreLoadNeverFewerPublished` | pkg/autoscaler/decider/kpa.go:134-160 | the same for the published scale after the scale-down delay |
| `DeciderHistory.BackwardsClockBreaksMonotonicity` | pkg/autoscaler/decider/kpa.go:100-107 | with a clock reading that goes back, less load can yield more pods: a concrete pair of runs |
| `DeciderHistory.ScaleFromZero` | pkg/autoscaler/decider/kpa.go:76-132 | with no ready pod and a request around, a reconcile in any state decides on at least one pod |
| `DeciderHistory.ScaleFromZeroPublished` | pkg/autoscaler/decider/kpa.go:134-158 | the delay window cannot bring that back to zero |
| `DeciderHistory.ZeroDecisionIff` | pkg/autoscaler/decider/kpa.go:76-132 | a reconcile decides on zero if and only if it is not cold with a request around, fewer pods are ready than the scale-down rate, and there is no load in the stable window nor, while panicking, in the panic window or earlier in the episode |
| `RequestStats.Counter.constructor` | pkg/autoscaler/metric/stats.go:30-32 | starts empty |
| `RequestStats.Counter.MoveTo` | pkg/autoscaler/metric/stats.go:34-45 | time only moves forward; the area since the last change is added |
| `RequestStats.Counter.In` | pkg/autoscaler/metric/stats.go:47-55 | accounts the time so far, then counts the request in |
| `RequestStats.Counter.Out` | pkg/autoscaler/metric/stats.go:57-64 | accounts the time so far, then counts the request out |
| `RequestStats.Counter.Take` | pkg/autoscaler/metric/stats.go:66-94 | reports the window and opens a new one, keeping the concurrency and the time |
| `StatsHistory.Fields` | pkg/autoscaler/metric/stats.go:34-94 | after any calls the fields are arrivals minus departures, the latest clock reading and the seconds since the last report |
| `StatsHistory.ReportsAreTheIntegral` | pkg/autoscaler/metric/stats.go:34-94 | average times seconds over all reports plus what is still held is the integral of the concurrency over running-maximum time, and reported plus held counts are the arrivals |
| `StatsHistory.IntegralIsTimeInSystem` | pkg/autoscaler/metric/stats.go:34-64 | that integral is the total time requests spent in the system |
| `StatsHistory.AverageWithinHeld` | pkg/autoscaler/metric/stats.go:66-82 | a report over a positive window lies between any bounds on the concurrencies held for some time in it, timestamps in any order |
| `StatsHistory.EmptyReportIsZero` | pkg/autoscaler/metric/stats.go:73-81 | a report over an empty window has an average of zero |
| `Autoscaler.ColdReconcilePublishes` | pkg/autoscaler/decider/kpa.go:74-158 | a reconcile that observed a request and no ready pod publishes at least one pod, whatever happened since the observation |
| `Autoscaler.TickerRuns` | pkg/autoscaler/interface.go:169-185 | while requests are outstanding the ticker runs, except inside the call that announces the first one |
| `Autoscaler.RunMatchesHistory` | pkg/autoscaler/decider/kpa.go:95-160 | in every run, panic state, delay window and published scale of a target are what the history specification makes of the observations it decided on |
| `Autoscaler.SettledIff` | pkg/autoscaler/interface.go:131-185 | in both modes a target is at zero, unqueued and not in work if and only if nothing ever queued it, or its latest attempt ended at zero and nothing queued it since that attempt began |
| `Autoscaler.StrandedIffGaveUp` | pkg/autoscaler/interface.go:131-185 | in non-async mode a target with requests is left at zero if and only if its latest attempt ended at zero and nothing queued it since that attempt began; and then the attempt failed, or saw a ready pod, or observed no request and was overtaken by one that still saw a nonzero scale |
| `Autoscaler.PublishesZeroIff` | pkg/autoscaler/decider/kpa.go:134-158 | a reconcile, warm or cold, publishes zero if and only if its observation makes it decide on zero and no positive value in the delay window still counts |
| `Autoscaler.FailedAttemptStrands` | pkg/autoscaler/interface.go:131-148 | the failed attempt happens: a run in which nothing is ever published and a request is left at zero |
| `Autoscaler.WarmReconcileStrands` | pkg/autoscaler/decider/kpa.go:76-160 | the warm one happens: a run with the shipped rates and no failed attempt in which the only ready pod, with its request in service and averages of zero, is scaled to zero |
| `Autoscaler.OvertakenReconcileStrands` | pkg/autoscaler/decider/kpa.go:74-158 | the overtaken reconcile happens: a run with the shipped rates, no failed attempt and no ready pod, that leaves a request at zero |
| `Autoscaler.AsyncStrandedIff` | pkg/autoscaler/interface.go:156-184 | in async mode a target with requests is left at zero if and only if the ticker has not fired yet, or its latest attempt ended at zero and the ticker has not fired since that attempt began |
| `Autoscaler.AsyncStrandsFirstRequest` | pkg/autoscaler/interface.go:182-184 | in async mode the very first request leaves its target at zero and unqueued until a tick |
| `Autoscaler.AutoscalerImpl.ReqIn` | pkg/autoscaler/interface.go:169-185 | panics before start or without a decider; else counts in, activates, and queues a synchronous target at zero; other targets untouched |
| `Autoscaler.AutoscalerImpl.ReqOut` | pkg/autoscaler/interface.go:187-197 | panics before start or without a decider; else counts out; other targets untouched |
| `Autoscaler.AutoscalerImpl.CountReady` | pkg/autoscaler/interface.go:87-100 | the loop counts exactly the ready pods |
| `GatewayInvariants.RequestsAreConserved` | pkg/gateway/interface.go:79-121 | at any point of any run each submission of a request is counted exactly once: not yet taken, inside, or answered |
| `GatewayInvariants.TakenIsAnsweredPlusInside` | pkg/gateway/interface.go:79-121 | the requests taken from the external input are, as a multiset, those answered plus those still inside |
| `GatewayInvariants.ResponsesAreTrue` | pkg/gateway/dispatcher/pod.go:76-93 | a response with a given status is on its way out or out exactly as often as an execution of its request ended with that status, its dispatch timed out, or it was refused for its target |
| `GatewayInvariants.RequestsKeepOrder` | pkg/gateway/interface.go:90-109 | requests for the target begin to be dispatched in the order in which they were submitted |
| `GatewayInvariants.ResponsesKeepOrder` | pkg/gateway/interface.go:110-117 | responses are passed on in the order in which they entered the output buffer |
| `GatewayInvariants.TokensGoWhereChecked` | pkg/gateway/dispatcher/pod.go:57-93 | executions in flight are the checks that found their endpoint live and have not finished, discarded tokens are the checks that found it gone, and tokens being checked are those taken and not yet checked |
| `GatewayInvariants.ConcurrencyIsOutstanding` | pkg/gateway/interface.go:92-117 | the decider's concurrency is the number of requests between the two ends of the relay, all for its target, hence never negative |
| `GatewayInvariants.ExecutionsAreBounded` | pkg/gateway/dispatcher/pod.go:57-93 | tokens of an endpoint queued, being pushed, checked or held, plus discarded ones, are the concurrency times the number of adds; an endpoint added once has at most that many executions in flight |
| `GatewayInvariants.LiveEndpointKeepsCapacity` | pkg/gateway/dispatcher/pod.go:60-73 | a live endpoint whose add has completed has its full share of tokens queued, being checked or held, whatever was removed and added again |
| `GatewayInvariants.BegunAt` | pkg/gateway/dispatcher/pod.go:95-121 | a reconcile in progress works on the difference it found when it began |
| `GatewayInvariants.ReconcileConverges` | pkg/gateway/dispatcher/pod.go:95-161 | at its end, under any interleaving, the endpoints are the desired ones minus failed adds, kept ones have their executor and no new token, new ones were added once, and errors fit the error channel |
| `PodDispatching.KeyReadsBack` | pkg/gateway/dispatcher/pod.go:27-32 | pod name, address and port can be read off an endpoint key |
| `PodDispatching.KeyDeterminesPod` | pkg/gateway/dispatcher/pod.go:27-32 | an endpoint key determines pod name and address, so restarts and reused addresses give new endpoints |
| `PodDispatching.PodDispatcher.Addresses` | pkg/gateway/dispatcher/pod.go:98-102 | the desired keys are exactly those of the ready pods, each with the address of a pod of that key |
| `PodDispatching.PodDispatcher.Reconcile` | pkg/gateway/dispatcher/pod.go:95-161 | endpoints are the desired ones minus those whose backend could not start, kept executors are the old ones, each new endpoint has a new executor of its own, and exactly the new endpoints gain their tokens |
| `PodDispatching.PodDispatcher.AddAll` | pkg/gateway/dispatcher/pod.go:126-144 | adds every startable key with an executor of its own and its tokens, reports every other one |
| `PodDispatching.PodDispatcher.RemoveAll` | pkg/gateway/dispatcher/pod.go:146-151 | removes exactly the stale keys and no token |
| `PodDispatching.PodDispatcher.Circulate` | pkg/gateway/dispatcher/pod.go:140-142 | puts a new endpoint's share of tokens into the queue, and nothing else |
| `PodDispatching.PodDispatcher.Dispatch` | pkg/gateway/dispatcher/pod.go:57-74 | takes tokens in order, dropping only those of endpoints that are gone; the result is live, or the queue ran dry or the deadline passed |
| `PodDispatching.PodDispatcher.Serve` | pkg/gateway/dispatcher/pod.go:76-93 | one request from start to end gets exactly one response; every token comes back except those of endpoints that are gone, so live endpoints keep theirs; it fails to dispatch if no token is live, and is executed if one is and the deadline allows |
| `ConnectionPool.ConnectionIsNotOvershared` | pkg/backend/grpc.go:48-105 | no connection is ever held by more than 50 executions, and once dialled its pooled and held copies are exactly 50 |
| `ConnectionPool.DialOnlyWhenSaturated` | pkg/backend/grpc.go:94-105 | a connection is dialled only when each fully pushed one has all its 50 copies in use, hence also in total |
| `ConnectionPool.ConnectionsBoundedByPeak` | pkg/backend/grpc.go:82-105 | connections never outnumber the executions that were ever in flight together |
| `ConnectionPool.WaiterIsNeverStuck` | pkg/backend/grpc.go:94-105 | an execution waiting for a copy after its dial never deadlocks: with the pool empty at least 50 copies are held or still to be pushed, so a step that helps it is enabled |
| `ConnectionPool.CopiesKeepOrder` | pkg/backend/grpc.go:58-103 | copies are handed out in the order in which they entered the pool |
| `ConnectionPool.GrpcBackend.NewGrpcBackend` | pkg/backend/grpc.go:30-39 | a backend is handed out with 50 copies of its first connection in the pool, or not at all if the dial fails |
| `ConnectionPool.GrpcBackend.NewClient` | pkg/backend/grpc.go:82-92 | appends 50 copies of a connection never used before, or changes nothing on failure |
| `ConnectionPool.GrpcBackend.GetOrCreateClient` | pkg/backend/grpc.go:94-105 | takes the first pooled copy, or one of a new connection if the pool is empty; fails only if that dial fails |
| `TraceConversion.Translate` | pkg/workload/conversion.go:51-76 | succeeds exactly when the counts sum to the number of inter-arrival times and runtimes suffice, and then invocation k has arrival and runtime k; which failure occurs otherwise |
| `TraceConversion.WellFormedIff` | pkg/workload/conversion.go:57-74 | a trace is well formed if and only if its counts, negative ones as none, add up to the number of gaps and there are runtimes for all of them |
| `TraceConversion.MinuteUnique` | pkg/workload/conversion.go:57-71 | every request belongs to exactly one minute |
| `TraceConversion.ArrivalGaps` | pkg/workload/conversion.go:58-63 | in microseconds, the first request of a minute arrives its gap after the minute begins, and every other one its gap after its predecessor |
| `TraceConversion.ArrivalWithinMinute` | pkg/workload/conversion.go:59-63 | if gaps are nonnegative and those of each minute add up to at most 60000000 microseconds, an arrival stays within its minute |
| `TraceConversion.ArrivalsSorted` | pkg/workload/conversion.go:57-71 | under the same condition the whole trace is sorted by arrival |
| `Sharding.Senders` | pkg/replay/worker.go:29-29 | the number of senders is the least whose capacity of 60000 invocations each holds the trace |
| `Sharding.NewWorker` | pkg/replay/worker.go:27-42 | deals the trace round-robin to the senders; an empty trace has none |
| `Sharding.BinEntry` | pkg/replay/worker.go:31-34 | entry j of bin b is invocation j * n + b |
| `Sharding.BinsBalanced` | pkg/replay/worker.go:28-34 | bin sizes differ by at most one and never exceed 60000 |
| `Sharding.InterleavingRestores` | pkg/replay/worker.go:31-34 | invocation i sits at position i / n of bin i % n, so re-interleaving restores the trace |
| `Sharding.RequestIdReadsBack` | pkg/replay/worker.go:53-53 | round trip: target, sender and index are parsed back from a request identifier, whatever characters the target contains |
| `Sharding.RequestIdsUnique` | pkg/replay/worker.go:53-53 | hence no two requests of a replay share an identifier |
| `Sharding.Send` | pkg/replay/worker.go:49-63 | one request per invocation of the bin, in order, with its identifier, target and runtime |

## Left out

- gRPC serving, Kubernetes clients and informers, controller managers and node address publishing: environment steps with the contracts listed under Conventions.
- Internals of `ServerHub`, `PodInfoCache`, `SharedMap`, client-go work queues, `chann`, Knative buckets and the max window: contracts only.
- Shutdown and closing of gateway, backend and contexts: the conservation laws are about the time before it.
- Interleavings inside a single `SyncPod`, for example between the lister read and the creation of the timer.
- What a restarted kubelet finds: a run ends when the process panics for want of a client, and the autoscaler's when a scale error names etcd.
- That a deleted pod is never recreated by a late duplicate bind: the code does not promise it.
- Fairness and inevitability: KubeletProgress proves that a goal can always be reached, not that a scheduler gets there.
- Requeue delays: a delayed key can fire at any time, so rate limiting and exact wait times are not captured.
- Floating-point rounding and int32 narrowing of scales, and the rounding in the number of senders.
- Pod status construction and timestamps: copying loops.
- The Knative service dispatcher, the one-time autoscaler, the deployment scaler and the collector's buckets: they would add only easy members.
- Experiment drivers, monitors, plots, scripts, manifests, protobuf code, configuration and the workload handler.
- Decider.KPADecider.Reconcile: the observed concurrencies are inputs, target and rates are positive, and the scale is not narrowed to int32.
- Decider.KPADecider.Current: models the max window by its contract over all records, not its ring of buckets.
- DeciderHistory.MoreLoadNeverFewerPods: needs nonzero, nondecreasing clock readings; BackwardsClockBreaksMonotonicity shows why.
- DeciderHistory.PanicIffSurging: needs nonzero, nondecreasing clock readings, as the panic time is compared with later ones.
- StatsHistory.ReportsAreTheIntegral: clock readings may go back but are never the zero time.
- Autoscaler.StrandedIffGaveUp: an attempt whose reconcile published counts as completed even if the scaler then fails to carry it out, and the worker is free from then on.
- PodDispatching.PodDispatcher.Reconcile: the object adds endpoints one after the other; the parallel adds are steps of the Gateway system.
- PodDispatching.PodDispatcher.Serve: one request at a time, with the executor's status as an input; concurrent ones are steps of the Gateway system.
- PodDispatching.PodDispatcher.Dispatch: the deadline is a number of tokens looked at; waiting on an empty queue ends the call.
- ConnectionPool.GrpcBackend.GetOrCreateClient: one call at a time; concurrent takers are steps of the ConnectionPool system, in which a failed dial is no step.
- Sharding.Send: waiting for the arrival time and the send timestamps are not captured.
- KubeletLimits.SharedNameExposesOtherPod: a statement about one sync outside the unique-names assumption, not about runs.
