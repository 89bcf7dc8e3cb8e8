/**
 Where pods are lost and timers left behind. In every run the exact cause is one kind of sync: the one that
 returns without requeueing a pod because its template is missing or its node is another kubelet's, and the one
 that starts a timer for an API pod without looking at the pod's lifecycle label.
 */
module KubeletForgotten {
  import opened Common
  import opened Kubelet
  import opened KubeletSystem
  import opened KubeletDecisions
  import opened KubeletInvariants
  import opened KubeletNoLoss

  // ---- in-memory pods --------------------------------------------------------------------------

  /** The kubelet remembers the pod under `k`, but nothing will make it look at the pod again. */
  predicate Untracked(s: State, k: PodKey) {
    k.name in s.local.inMem && InfoKey(s.local.inMem[k.name]) == k && !InMemTracked(s, k)
  }

  /** The sync of `k` resolves to the in-memory pod and drops it: no template, or a node of another kubelet. */
  predicate IgnoresInMem(c: Cluster, s: State, l: Label, k: PodKey) {
    && l.LSync? && l.key == k && !l.o.listerFails && !l.o.templateFails
    && k !in s.store && k.name in s.local.inMem && InfoKey(s.local.inMem[k.name]) == k
    && (OwnerOf(s.local.inMem[k.name]) !in s.templates || Elsewhere(c.cfg.self, s.nodes, s.local.inMem[k.name].node))
  }

  /** Apart from the queue, nothing knows of the pod: no delayed key, no event, no expose, no API object. */
  predicate OnlyQueued(s: State, k: PodKey) {
    k !in s.local.delayed && !Mentions(s.events, 0, k) && !Exposing(s, k) && k !in s.api
  }

  predicate LosesInMem(c: Cluster, s: State, l: Label, k: PodKey) { IgnoresInMem(c, s, l, k) && OnlyQueued(s, k) }

  predicate Creates(l: Label, k: PodKey) { l.LApiCreate? && KeyOf(l.pod) == k }

  lemma UntrackedFrame(s: State, s': State, k: PodKey)
    requires Lookup(s'.local.inMem, k.name) == Lookup(s.local.inMem, k.name)
    requires k in s'.local.queue || k in s'.local.delayed <==> k in s.local.queue || k in s.local.delayed
    requires Mentions(s'.events, 0, k) <==> Mentions(s.events, 0, k)
    requires Exposing(s', k) <==> Exposing(s, k)
    requires k in s'.api <==> k in s.api
    ensures Untracked(s', k) <==> Untracked(s, k)
  {
  }

  lemma UntrackedWrite(s: State, s': State, j: PodKey, after: Option<Pod>, k: PodKey)
    requires s' == WriteApi(s, j, after).(nextUid := s'.nextUid)
    ensures Untracked(s', k) <==> Untracked(s, k) && j != k
  {
    MentionsWrite(s, j, after, 0, k);
    if j != k { UntrackedFrame(s, s', k); }
  }

  lemma UntrackedHandle(c: Cluster, s: State, s': State, k: PodKey)
    requires Inv(c, s) && |s.events| > 0
    requires s' == s.(
      local := HandleNotice(s.local, Filtered(s.events[0])), events := s.events[1..], delivered := s'.delivered)
    ensures Untracked(s', k) <==> Untracked(s, k)
  {
    var e := s.events[0];
    assert EventOk(c, e);
    HandleMentions(s, k);
    assert Exposing(s', k) == Exposing(s, k);
    if k.name in s.local.inMem && InfoKey(s.local.inMem[k.name]) == k {
      var info := s.local.inMem[k.name];
      assert InfoOk(c, k.name, info);
      if e.key == k { HandlerOfSelf(c, s.local, e, info); } else { HandlerOfOther(c, s.local, e, info); }
    }
  }

  lemma ExposingWithout(s: State, s': State, p: Pod, k: PodKey)
    requires p in s.exposing && KeyOf(p) != k && (s'.exposing == s.exposing || s'.exposing == s.exposing - multiset{p})
    ensures Exposing(s', k) <==> Exposing(s, k)
  {
    if Exposing(s, k) {
      var q :| q in s.exposing && KeyOf(q) == k;
      assert q in s'.exposing;
    }
  }

  lemma UntrackedExpose(c: Cluster, s: State, p: Pod, outcome: ExposeOutcome, k: PodKey)
    requires Enabled(c, s, LExpose(p, outcome))
    ensures Untracked(ExposeStep(s, p, outcome), k) <==> Untracked(s, k)
  {
    var s' := ExposeStep(s, p, outcome);
    if KeyOf(p) != k {
      ExposingWithout(s, s', p, k);
      MentionsWrite(s, KeyOf(p), Some(p.(uid := s.nextUid)), 0, k);
      UntrackedFrame(s, s', k);
    }
  }

  /** What a sync asks of the outside for another key neither tracks nor loses the pod. */
  lemma UntrackedEffect(c: Cluster, s: State, r: SyncResult, applied: bool, k: PodKey)
    requires EffectPossible(c, s, r, applied) && r.local == s.local
    requires match r.effect
      case NoEffect => true
      case Expose(p) => KeyOf(p) != k
      case RequestDelete(d) => d != k
      case MarkReady(p) => KeyOf(p) != k
    ensures Untracked(ApplyEffect(c, s, r, applied), k) <==> Untracked(s, k)
  {
    var s' := ApplyEffect(c, s, r, applied);
    match r.effect
    case NoEffect =>
    case Expose(p) =>
      ExposingFrame(s, s', k);
      UntrackedFrame(s, s', k);
    case RequestDelete(d) => if applied && d in s.api { UntrackedWrite(s, s', d, None, k); }
    case MarkReady(p) =>
      if applied {
        UntrackedWrite(s, s', KeyOf(p), Some(s.api[KeyOf(p)].(ready := true, terminated := false)), k);
      }
  }

  lemma UntrackedOtherSync(c: Cluster, s: State, j: PodKey, r: SyncResult, applied: bool, k: PodKey)
    requires Inv(c, s) && j in s.local.queue && SyncFacts(c, s, j, r) && EffectPossible(c, s, r, applied) && j != k
    ensures Untracked(ApplyEffect(c, s, r, applied), k) <==> Untracked(s, k)
  {
    var s1 := s.(local := r.local);
    assert j in s.store ==> PodOk(c, j, s.store[j]);
    assert r.effect.Expose? ==> InfoOk(c, j.name, s.local.inMem[j.name]) && KeyOk(c, j);
    assert Exposing(s1, k) == Exposing(s, k);
    UntrackedFrame(s, s1, k);
    UntrackedEffect(c, s1, r, applied, k);
  }

  /** The sync of the pod itself loses it exactly by ignoring it while nothing else knows of it. */
  lemma UntrackedOwnSync(c: Cluster, s: State, l: Label, k: PodKey)
    requires Inv(c, s) && Enabled(c, s, l) && l.LSync? && l.key == k
    ensures Untracked(Apply(c, s, l), k) <==> LosesInMem(c, s, l, k)
  {
    if LosesInMem(c, s, l, k) {
      IgnoredIsLost(c, s, l, k);
    } else if Untracked(Apply(c, s, l), k) {
      LostIsIgnored(c, s, l, k);
    }
  }

  lemma IgnoredIsLost(c: Cluster, s: State, l: Label, k: PodKey)
    requires Enabled(c, s, l) && LosesInMem(c, s, l, k)
    ensures Untracked(Apply(c, s, l), k)
  {
    assert SyncStep(c, s, k, l.o) == SyncResult(s.local.(queue := s.local.queue - {k}), NoEffect, true);
    ExposingFrame(Apply(c, s, l), s, k);
  }

  lemma LostIsIgnored(c: Cluster, s: State, l: Label, k: PodKey)
    requires Inv(c, s) && Enabled(c, s, l) && l.LSync? && l.key == k && Untracked(Apply(c, s, l), k)
    ensures LosesInMem(c, s, l, k)
  {
    var r := SyncStep(c, s, k, l.o);
    SyncSummary(c, s, k, l.o);
    SyncLog(c, s, k, r, l.applied);
    LostWasOnlyQueued(c, s, Apply(c, s, l), r, k);
    StoreCurrent(s, k);
    if !IgnoresInMem(c, s, l, k) { NotIgnoredIsTracked(c, s, l, k); }
  }

  lemma LostWasOnlyQueued(c: Cluster, s: State, s': State, r: SyncResult, k: PodKey)
    requires SyncFacts(c, s, k, r) && s'.local == r.local && s.exposing <= s'.exposing && Untracked(s', k)
    requires Mentions(s.events, 0, k) ==> Mentions(s'.events, 0, k)
    requires Mentions(s'.events, 0, k) || Lookup(s'.api, k) == Lookup(s.api, k)
    ensures OnlyQueued(s, k)
  {
    ExposingFrame(s, s', k);
  }

  lemma NotIgnoredIsTracked(c: Cluster, s: State, l: Label, k: PodKey)
    requires Inv(c, s) && OnlyQueued(s, k) && k !in s.store && l.LSync? && l.key == k && !IgnoresInMem(c, s, l, k)
    requires k.name in s.local.inMem && InfoKey(s.local.inMem[k.name]) == k
    ensures var r := SyncStep(c, s, k, l.o); k in r.local.delayed || r.effect.Expose?
  {
    if !l.o.listerFails && !l.o.templateFails {
      SyncTracksInMem(c, s, k, l.o);
      assert InfoOk(c, k.name, s.local.inMem[k.name]);
      assert TimerOk(s, k);
      assert forall j | 0 <= j < |s.events| :: !IsDrop(s.events[j], k);
    }
  }

  /** Neither an API write, nor a step of handler, worker or expose goroutine. */
  predicate Plain(l: Label) { !WritesApi(l) && !l.LSync? && !l.LExpose? && !l.LHandle? }

  lemma UntrackedByApi(c: Cluster, s: State, l: Label, k: PodKey)
    requires Enabled(c, s, l) && WritesApi(l)
    ensures Untracked(Apply(c, s, l), k) <==> Untracked(s, k) && !Creates(l, k)
  {
    var s' := Apply(c, s, l);
    match l
    case LApiCreate(p) => UntrackedWrite(s, s', KeyOf(p), Some(p.(uid := s.nextUid)), k);
    case LApiUpdate(p) => UntrackedWrite(s, s', KeyOf(p), Some(p), k);
    case LApiRemove(d) => UntrackedWrite(s, s', d, None, k);
  }

  lemma UntrackedByPlain(c: Cluster, s: State, l: Label, k: PodKey)
    requires Inv(c, s) && Enabled(c, s, l) && Plain(l) && !l.LBindPod?
    ensures Untracked(Apply(c, s, l), k) <==> Untracked(s, k)
  {
    var s' := Apply(c, s, l);
    assert Exposing(s', k) == Exposing(s, k);
    UntrackedFrame(s, s', k);
  }

  /** A bind of a pod that is already remembered changes nothing; a new one is queued at once. */
  lemma UntrackedByBind(c: Cluster, s: State, l: Label, k: PodKey)
    requires Inv(c, s) && Enabled(c, s, l) && l.LBindPod?
    ensures Untracked(Apply(c, s, l), k) <==> Untracked(s, k)
  {
    assert Exposing(Apply(c, s, l), k) == Exposing(s, k);
  }

  lemma UntrackedBySync(c: Cluster, s: State, l: Label, k: PodKey)
    requires Inv(c, s) && Enabled(c, s, l) && l.LSync?
    ensures Untracked(Apply(c, s, l), k) <==> Untracked(s, k) || LosesInMem(c, s, l, k)
  {
    if l.key == k {
      UntrackedOwnSync(c, s, l, k);
    } else {
      SyncSummary(c, s, l.key, l.o);
      UntrackedOtherSync(c, s, l.key, SyncStep(c, s, l.key, l.o), l.applied, k);
    }
  }

  /** One step: a pod is lost, or stays lost, only so. */
  lemma UntrackedStep(c: Cluster, s: State, l: Label, k: PodKey)
    requires Inv(c, s) && Enabled(c, s, l)
    ensures Untracked(Apply(c, s, l), k) <==> (Untracked(s, k) && !Creates(l, k)) || LosesInMem(c, s, l, k)
  {
    if WritesApi(l) {
      UntrackedByApi(c, s, l, k);
    } else if l.LExpose? {
      UntrackedExpose(c, s, l.pod, l.outcome, k);
    } else if l.LHandle? {
      UntrackedHandle(c, s, Apply(c, s, l), k);
    } else if l.LSync? {
      UntrackedBySync(c, s, l, k);
    } else if l.LBindPod? {
      UntrackedByBind(c, s, l, k);
    } else {
      UntrackedByPlain(c, s, l, k);
    }
  }

  /** The steps that lose the pod under `k`. */
  function InMemLosses(c: Cluster, states: seq<State>, labels: seq<Label>, k: PodKey): seq<bool>
    requires |states| == |labels| + 1
  {
    seq(|labels|, i requires 0 <= i < |labels| => LosesInMem(c, states[i], labels[i], k))
  }

  function Uncreated(labels: seq<Label>, k: PodKey): seq<bool> {
    seq(|labels|, i requires 0 <= i < |labels| => !Creates(labels[i], k))
  }

  /** An earlier sync lost the pod, and its API object has not been created since. */
  ghost predicate WasIgnored(c: Cluster, states: seq<State>, labels: seq<Label>, t: nat, k: PodKey)
    requires |states| == |labels| + 1 && t < |states|
  {
    exists i: nat :: Since(InMemLosses(c, states, labels, k), Uncreated(labels, k), i, t)
  }

  lemma UntrackedStepAt(c: Cluster, states: seq<State>, labels: seq<Label>, i: nat, k: PodKey)
    requires IsRun(c, states, labels) && i < |labels|
    ensures Untracked(states[i + 1], k) <==>
            (Untracked(states[i], k) && Uncreated(labels, k)[i]) || InMemLosses(c, states, labels, k)[i]
  {
    Reachable(c, states, labels, i);
    assert StepAt(c, states, labels, i);
    UntrackedStep(c, states[i], labels[i], k);
  }

  /**
   In a whole run, an in-memory pod is untracked if and only if an earlier sync ignored it, for want of its
   template or because of its node, and its API object has not been created since.
   */
  lemma UntrackedIffIgnored(c: Cluster, states: seq<State>, labels: seq<Label>, t: nat, k: PodKey)
    requires IsRun(c, states, labels) && t < |states|
    ensures Untracked(states[t], k) <==> WasIgnored(c, states, labels, t, k)
  {
    var holds := seq(|states|, i requires 0 <= i < |states| => Untracked(states[i], k));
    var cause, keep := InMemLosses(c, states, labels, k), Uncreated(labels, k);
    forall i: nat | i < |labels| ensures holds[i + 1] <==> (holds[i] && keep[i]) || cause[i] {
      UntrackedStepAt(c, states, labels, i, k);
    }
    HoldsIffCaused(holds, cause, keep, t);
  }

  // ---- API pods --------------------------------------------------------------------------------

  /** The object waits to be made ready or to be removed. */
  predicate HasWork(p: Pod) { EnqueueFilter(p) && (p.deleting || (IsPodActive(p) && !p.ready)) }

  predicate ApiUntracked(s: State, k: PodKey) { k in s.api && HasWork(s.api[k]) && !ApiTracked(s, k) }

  /** The sync of `k` finds the API object bound to a node of another kubelet. */
  predicate IgnoresApi(c: Cluster, s: State, l: Label, k: PodKey) {
    && l.LSync? && l.key == k && !l.o.listerFails
    && k in s.store && Elsewhere(c.cfg.self, s.nodes, s.store[k].node)
  }

  predicate ApiOnlyQueued(s: State, k: PodKey) {
    k in s.api && HasWork(s.api[k]) && k !in s.local.delayed && !Mentions(s.events, 0, k)
  }

  predicate LosesApi(c: Cluster, s: State, l: Label, k: PodKey) { IgnoresApi(c, s, l, k) && ApiOnlyQueued(s, k) }

  /** What draws attention to the object again: a write to it, or another accepted bind of the pod. */
  predicate Touches(s: State, l: Label, k: PodKey) {
    || (l.LApiUpdate? && KeyOf(l.pod) == k)
    || (l.LApiRemove? && l.key == k)
    || (Acceptable(s, l) && InfoKey(l.info) == k)
  }

  lemma ApiUntrackedFrame(s: State, s': State, k: PodKey)
    requires Lookup(s'.api, k) == Lookup(s.api, k)
    requires k in s'.local.queue || k in s'.local.delayed <==> k in s.local.queue || k in s.local.delayed
    requires Mentions(s'.events, 0, k) <==> Mentions(s.events, 0, k)
    ensures ApiUntracked(s', k) <==> ApiUntracked(s, k)
  {
  }

  lemma ApiUntrackedWrite(s: State, s': State, j: PodKey, after: Option<Pod>, k: PodKey)
    requires s'.api == WriteApi(s, j, after).api && s'.events == WriteApi(s, j, after).events
    requires s'.local == s.local
    ensures ApiUntracked(s', k) <==> ApiUntracked(s, k) && j != k
  {
    MentionsWrite(s, j, after, 0, k);
    if j != k { ApiUntrackedFrame(s, s', k); }
  }

  lemma ApiUntrackedHandle(c: Cluster, s: State, k: PodKey)
    requires Inv(c, s) && Enabled(c, s, LHandle)
    ensures ApiUntracked(Apply(c, s, LHandle), k) <==> ApiUntracked(s, k)
  {
    HandleMentions(s, k);
    assert EventOk(c, s.events[0]);
    if k in s.api && HasWork(s.api[k]) && ApiTracked(s, k) {
      assert PodOk(c, k, s.api[k]);
      HandledApi(c, s, k);
    }
  }

  lemma ApiUntrackedExpose(c: Cluster, s: State, p: Pod, outcome: ExposeOutcome, k: PodKey)
    requires Enabled(c, s, LExpose(p, outcome))
    ensures ApiUntracked(ExposeStep(s, p, outcome), k) <==> ApiUntracked(s, k)
  {
    var s' := ExposeStep(s, p, outcome);
    if outcome.Created? || outcome.CreatedReplyLost? {
      ApiUntrackedWrite(s, s', KeyOf(p), Some(p.(uid := s.nextUid)), k);
    } else {
      ApiUntrackedFrame(s, s', k);
    }
  }

  lemma ApiUntrackedOtherSync(c: Cluster, s: State, j: PodKey, r: SyncResult, applied: bool, k: PodKey)
    requires Inv(c, s) && j in s.local.queue && SyncFacts(c, s, j, r) && EffectPossible(c, s, r, applied) && j != k
    ensures ApiUntracked(ApplyEffect(c, s, r, applied), k) <==> ApiUntracked(s, k)
  {
    var s1 := s.(local := r.local);
    var s' := ApplyEffect(c, s, r, applied);
    assert j in s.store ==> PodOk(c, j, s.store[j]);
    ApiUntrackedFrame(s, s1, k);
    match r.effect
    case NoEffect =>
    case Expose(p) => ApiUntrackedFrame(s1, s', k);
    case RequestDelete(d) => if applied && d in s.api { ApiUntrackedWrite(s1, s', d, None, k); }
    case MarkReady(p) =>
      if applied {
        ApiUntrackedWrite(s1, s', KeyOf(p), Some(s.api[KeyOf(p)].(ready := true, terminated := false)), k);
      }
  }

  lemma ApiUntrackedOwnSync(c: Cluster, s: State, l: Label, k: PodKey)
    requires Inv(c, s) && Enabled(c, s, l) && l.LSync? && l.key == k
    ensures ApiUntracked(Apply(c, s, l), k) <==> LosesApi(c, s, l, k)
  {
    if LosesApi(c, s, l, k) {
      ApiIgnoredIsLost(c, s, l, k);
    } else if ApiUntracked(Apply(c, s, l), k) {
      ApiLostIsIgnored(c, s, l, k);
    }
  }

  lemma ApiIgnoredIsLost(c: Cluster, s: State, l: Label, k: PodKey)
    requires Enabled(c, s, l) && LosesApi(c, s, l, k)
    ensures ApiUntracked(Apply(c, s, l), k)
  {
    assert SyncStep(c, s, k, l.o) == SyncResult(s.local.(queue := s.local.queue - {k}), NoEffect, true);
  }

  lemma ApiLostIsIgnored(c: Cluster, s: State, l: Label, k: PodKey)
    requires Inv(c, s) && Enabled(c, s, l) && l.LSync? && l.key == k && ApiUntracked(Apply(c, s, l), k)
    ensures LosesApi(c, s, l, k)
  {
    var r := SyncStep(c, s, k, l.o);
    SyncSummary(c, s, k, l.o);
    SyncLog(c, s, k, r, l.applied);
    StoreCurrent(s, k);
    if !Elsewhere(c.cfg.self, s.nodes, s.store[k].node) { SyncTracksApi(c, s, k, l.o); }
  }

  lemma ApiUntrackedByApi(c: Cluster, s: State, l: Label, k: PodKey)
    requires Enabled(c, s, l) && WritesApi(l)
    ensures ApiUntracked(Apply(c, s, l), k) <==> ApiUntracked(s, k) && !Touches(s, l, k)
  {
    var s' := Apply(c, s, l);
    match l
    case LApiCreate(p) => ApiUntrackedWrite(s, s', KeyOf(p), Some(p.(uid := s.nextUid)), k);
    case LApiUpdate(p) => ApiUntrackedWrite(s, s', KeyOf(p), Some(p), k);
    case LApiRemove(d) => ApiUntrackedWrite(s, s', d, None, k);
  }

  lemma ApiUntrackedByPlain(c: Cluster, s: State, l: Label, k: PodKey)
    requires Enabled(c, s, l) && Plain(l)
    ensures ApiUntracked(Apply(c, s, l), k) <==> ApiUntracked(s, k) && !Touches(s, l, k)
  {
    if !Touches(s, l, k) { ApiUntrackedFrame(s, Apply(c, s, l), k); }
  }

  lemma ApiUntrackedBySync(c: Cluster, s: State, l: Label, k: PodKey)
    requires Inv(c, s) && Enabled(c, s, l) && l.LSync?
    ensures ApiUntracked(Apply(c, s, l), k) <==> ApiUntracked(s, k) || LosesApi(c, s, l, k)
  {
    if l.key == k {
      ApiUntrackedOwnSync(c, s, l, k);
    } else {
      SyncSummary(c, s, l.key, l.o);
      ApiUntrackedOtherSync(c, s, l.key, SyncStep(c, s, l.key, l.o), l.applied, k);
    }
  }

  lemma ApiUntrackedStep(c: Cluster, s: State, l: Label, k: PodKey)
    requires Inv(c, s) && Enabled(c, s, l)
    ensures ApiUntracked(Apply(c, s, l), k) <==> (ApiUntracked(s, k) && !Touches(s, l, k)) || LosesApi(c, s, l, k)
  {
    if WritesApi(l) {
      ApiUntrackedByApi(c, s, l, k);
    } else if l.LExpose? {
      ApiUntrackedExpose(c, s, l.pod, l.outcome, k);
    } else if l.LHandle? {
      ApiUntrackedHandle(c, s, k);
    } else if l.LSync? {
      ApiUntrackedBySync(c, s, l, k);
    } else {
      ApiUntrackedByPlain(c, s, l, k);
    }
  }

  function ApiLosses(c: Cluster, states: seq<State>, labels: seq<Label>, k: PodKey): seq<bool>
    requires |states| == |labels| + 1
  {
    seq(|labels|, i requires 0 <= i < |labels| => LosesApi(c, states[i], labels[i], k))
  }

  function Untouched(states: seq<State>, labels: seq<Label>, k: PodKey): seq<bool>
    requires |states| == |labels| + 1
  {
    seq(|labels|, i requires 0 <= i < |labels| => !Touches(states[i], labels[i], k))
  }

  /** An earlier sync ignored the API pod, and nothing has touched it since. */
  ghost predicate ApiWasIgnored(c: Cluster, states: seq<State>, labels: seq<Label>, t: nat, k: PodKey)
    requires |states| == |labels| + 1 && t < |states|
  {
    exists i: nat :: Since(ApiLosses(c, states, labels, k), Untouched(states, labels, k), i, t)
  }

  lemma ApiUntrackedStepAt(c: Cluster, states: seq<State>, labels: seq<Label>, i: nat, k: PodKey)
    requires IsRun(c, states, labels) && i < |labels|
    ensures ApiUntracked(states[i + 1], k) <==>
            (ApiUntracked(states[i], k) && Untouched(states, labels, k)[i]) || ApiLosses(c, states, labels, k)[i]
  {
    Reachable(c, states, labels, i);
    assert StepAt(c, states, labels, i);
    ApiUntrackedStep(c, states[i], labels[i], k);
  }

  /**
   In a whole run, an API pod with work to do is untracked if and only if an earlier sync ignored it because
   of its node, and nothing has touched it since.
   */
  lemma ApiUntrackedIffIgnored(c: Cluster, states: seq<State>, labels: seq<Label>, t: nat, k: PodKey)
    requires IsRun(c, states, labels) && t < |states|
    ensures ApiUntracked(states[t], k) <==> ApiWasIgnored(c, states, labels, t, k)
  {
    var holds := seq(|states|, i requires 0 <= i < |states| => ApiUntracked(states[i], k));
    var cause, keep := ApiLosses(c, states, labels, k), Untouched(states, labels, k);
    forall i: nat | i < |labels| ensures holds[i + 1] <==> (holds[i] && keep[i]) || cause[i] {
      ApiUntrackedStepAt(c, states, labels, i, k);
    }
    HoldsIffCaused(holds, cause, keep, t);
  }

  // ---- no pod is forgotten, exactly when -------------------------------------------------------

  /**
   No pod is forgotten in a state of a run if and only if no pod that needs work there was ignored by an
   earlier sync: an in-memory pod with a template on a node not another kubelet's, whose last look at it ended
   with its template missing or its node foreign; or an API pod of ours whose last look ended with a foreign node.
   */
  lemma NoPodForgottenIffNoneIgnored(c: Cluster, states: seq<State>, labels: seq<Label>, t: nat)
    requires IsRun(c, states, labels) && t < |states|
    ensures var s := states[t];
      NoPodForgotten(c, s) <==>
        && (forall n | InMemNeeds(c, s.local, s.templates, s.nodes, n) ::
              !WasIgnored(c, states, labels, t, InfoKey(s.local.inMem[n])))
        && (forall k | ApiNeeds(c, s.api, s.nodes, k) :: !ApiWasIgnored(c, states, labels, t, k))
  {
    var s := states[t];
    Reachable(c, states, labels, t);
    forall n | InMemNeeds(c, s.local, s.templates, s.nodes, n)
      ensures var k := InfoKey(s.local.inMem[n]); InMemTracked(s, k) <==> !WasIgnored(c, states, labels, t, k)
    {
      assert InfoOk(c, n, s.local.inMem[n]);
      UntrackedIffIgnored(c, states, labels, t, InfoKey(s.local.inMem[n]));
    }
    forall k | ApiNeeds(c, s.api, s.nodes, k)
      ensures ApiTracked(s, k) <==> !ApiWasIgnored(c, states, labels, t, k)
    {
      ApiUntrackedIffIgnored(c, states, labels, t, k);
    }
  }

  // ---- timers ----------------------------------------------------------------------------------

  /** A sync starts a timer for an API pod without the lifecycle label, whose loss the handlers have dealt with. */
  predicate StartsUnlabelled(c: Cluster, s: State, l: Label, k: PodKey) {
    && StartsApiTimer(c, s, l, k) && !EnqueueFilter(s.store[k])
    && !Passes(Lookup(s.api, k)) && !Exposing(s, k) && forall e | e in s.events :: !IsDrop(e, k)
  }

  /** The object gets the label back, or a new one is created with it. */
  predicate Labels(l: Label, k: PodKey) {
    (l.LApiCreate? || l.LApiUpdate?) && KeyOf(l.pod) == k && EnqueueFilter(l.pod)
  }

  lemma UnlabelledIffUnanchored(c: Cluster, s: State, l: Label, k: PodKey)
    requires Inv(c, s) && StartsApiTimer(c, s, l, k)
    ensures StartsUnlabelled(c, s, l, k) <==> !Anchored(s, k)
  {
    if Passes(Lookup(s.store, k)) {
      assert Visible(s, s.delivered, k);
    }
  }

  lemma LeakedByApi(c: Cluster, s: State, l: Label, k: PodKey)
    requires Enabled(c, s, l) && WritesApi(l) && !Anchored(s, k)
    ensures Anchored(Apply(c, s, l), k) <==> Labels(l, k)
  {
    var s' := Apply(c, s, l);
    match l
    case LApiCreate(p) =>
      var after := Some(p.(uid := s.nextUid));
      if !Labels(l, k) {
        UnanchoredPut(s, KeyOf(p), after, k);
        AnchoredFrame(s', WriteApi(s, KeyOf(p), after), k);
      }
    case LApiUpdate(p) => if !Labels(l, k) { UnanchoredPut(s, KeyOf(p), Some(p), k); }
    case LApiRemove(d) => UnanchoredPut(s, d, None, k);
  }

  lemma LeakedByExpose(s: State, p: Pod, outcome: ExposeOutcome, k: PodKey)
    requires p in s.exposing && !Anchored(s, k)
    ensures !Anchored(ExposeStep(s, p, outcome), k)
  {
    var s' := ExposeStep(s, p, outcome);
    var after := Some(p.(uid := s.nextUid));
    assert KeyOf(p) != k;
    ExposingWithout(s, s', p, k);
    UnanchoredPut(s, KeyOf(p), after, k);
    assert outcome.Created? || outcome.CreatedReplyLost? ==>
      Visible(s', 0, k) == Visible(WriteApi(s, KeyOf(p), after), 0, k);
    assert outcome.AlreadyExists? || outcome.Failed? ==> Visible(s', 0, k) == Visible(s, 0, k);
  }

  /** What becomes of a timer that is already left behind. */
  lemma LeakedStep(c: Cluster, s: State, l: Label, k: PodKey)
    requires Inv(c, s) && Enabled(c, s, l) && k in s.local.timers && !Anchored(s, k)
    ensures Anchored(Apply(c, s, l), k) <==> Labels(l, k)
  {
    if WritesApi(l) {
      LeakedByApi(c, s, l, k);
    } else if l.LExpose? {
      LeakedByExpose(s, l.pod, l.outcome, k);
    } else if l.LHandle? {
      HandleUnanchored(s, Apply(c, s, l), k);
    } else if l.LSync? {
      LeakedSync(c, s, l, k);
    } else {
      AnchoredFrame(Apply(c, s, l), s, k);
    }
  }

  lemma UnanchoredPut(s: State, j: PodKey, after: Option<Pod>, k: PodKey)
    requires !Anchored(s, k) && (j == k ==> !Passes(after))
    ensures !Anchored(WriteApi(s, j, after), k)
  {
    var s' := WriteApi(s, j, after);
    assert forall i | 0 <= i < |s.events| :: s'.events[i] == s.events[i];
  }

  lemma HandleUnanchored(s: State, s': State, k: PodKey)
    requires !Anchored(s, k) && |s.events| > 0
    requires s'.events == s.events[1..] && s'.api == s.api && s'.exposing == s.exposing
    ensures !Anchored(s', k)
  {
    assert forall i | 0 <= i < |s'.events| :: s'.events[i] == s.events[i + 1];
  }

  lemma LeakedSync(c: Cluster, s: State, l: Label, k: PodKey)
    requires Inv(c, s) && Enabled(c, s, l) && l.LSync? && k in s.local.timers && !Anchored(s, k)
    ensures !Anchored(Apply(c, s, l), k)
  {
    var r := SyncStep(c, s, l.key, l.o);
    SyncSummary(c, s, l.key, l.o);
    TimerEffect(c, s, l.key, r, l.applied, k);
    if r.effect.Expose? {
      assert InfoOk(c, l.key.name, s.local.inMem[l.key.name]) && KeyOk(c, l.key);
    }
  }

  lemma LeakStep(c: Cluster, s: State, l: Label, k: PodKey)
    requires Inv(c, s) && Enabled(c, s, l)
    ensures !TimerOk(Apply(c, s, l), k) <==>
            || (!TimerOk(s, k) && RunsOn(Apply(c, s, l), l, k))
            || StartsUnlabelled(c, s, l, k)
  {
    if TimerOk(s, k) {
      TimerStep(c, s, l, k);
      if StartsApiTimer(c, s, l, k) { UnlabelledIffUnanchored(c, s, l, k); }
    } else {
      LeakedStep(c, s, l, k);
    }
  }

  function UnlabelledStarts(c: Cluster, states: seq<State>, labels: seq<Label>, k: PodKey): seq<bool>
    requires |states| == |labels| + 1
  {
    seq(|labels|, i requires 0 <= i < |labels| => StartsUnlabelled(c, states[i], labels[i], k))
  }

  /** The timer of `k` runs after the step, which does not give an object of `k` the label. */
  predicate RunsOn(s': State, l: Label, k: PodKey) { k in s'.local.timers && !Labels(l, k) }

  function StillRunning(states: seq<State>, labels: seq<Label>, k: PodKey): seq<bool>
    requires |states| == |labels| + 1
  {
    seq(|labels|, i requires 0 <= i < |labels| => RunsOn(states[i + 1], labels[i], k))
  }

  ghost predicate WasUnlabelled(c: Cluster, states: seq<State>, labels: seq<Label>, t: nat, k: PodKey)
    requires |states| == |labels| + 1 && t < |states|
  {
    exists i: nat :: Since(UnlabelledStarts(c, states, labels, k), StillRunning(states, labels, k), i, t)
  }

  lemma LeakStepAt(c: Cluster, states: seq<State>, labels: seq<Label>, i: nat, k: PodKey)
    requires IsRun(c, states, labels) && i < |labels|
    ensures !TimerOk(states[i + 1], k) <==>
            || (!TimerOk(states[i], k) && RunsOn(states[i + 1], labels[i], k))
            || StartsUnlabelled(c, states[i], labels[i], k)
  {
    Reachable(c, states, labels, i);
    assert StepAt(c, states, labels, i);
    LeakStep(c, states[i], labels[i], k);
  }

  /**
   In a whole run, a timer is left behind if and only if a sync started it for an API pod whose lifecycle
   label had gone, it has run ever since, and no object of that name got the label again.
   */
  lemma TimerLeaksIffUnlabelled(c: Cluster, states: seq<State>, labels: seq<Label>, t: nat, k: PodKey)
    requires IsRun(c, states, labels) && t < |states|
    ensures !TimerOk(states[t], k) <==> WasUnlabelled(c, states, labels, t, k)
  {
    var holds := seq(|states|, i requires 0 <= i < |states| => !TimerOk(states[i], k));
    var cause, keep := UnlabelledStarts(c, states, labels, k), StillRunning(states, labels, k);
    forall i: nat | i < |labels| ensures holds[i + 1] <==> (holds[i] && keep[i]) || cause[i] {
      LeakStepAt(c, states, labels, i, k);
    }
    HoldsIffCaused(holds, cause, keep, t);
  }

  /** Checking the label in the sync would be enough: then no timer is ever left behind. */
  lemma LabelledTimersDoNotLeak(c: Cluster, states: seq<State>, labels: seq<Label>, t: nat, k: PodKey)
    requires IsRun(c, states, labels) && t < |states|
    requires forall i | 0 <= i < t && StartsApiTimer(c, states[i], labels[i], k) :: EnqueueFilter(states[i].store[k])
    ensures TimerOk(states[t], k)
  {
    TimerLeaksIffUnlabelled(c, states, labels, t, k);
    assert forall i | 0 <= i < t :: !StartsUnlabelled(c, states[i], labels[i], k);
  }

  /**
   Over a whole run no timer of `k` is ever left behind if and only if no sync starts one for an API pod
   whose lifecycle label has gone. Managed pods keep theirs.
   */
  lemma TimersDoNotLeakIffLabelled(c: Cluster, states: seq<State>, labels: seq<Label>, k: PodKey)
    requires IsRun(c, states, labels)
    ensures (forall i | 0 <= i < |states| :: TimerOk(states[i], k)) <==>
            (forall i | 0 <= i < |labels| :: !StartsUnlabelled(c, states[i], labels[i], k))
    ensures k.name in c.home ==> forall i | 0 <= i < |states| :: TimerOk(states[i], k)
  {
    if forall i | 0 <= i < |states| :: TimerOk(states[i], k) {
      forall i: nat | i < |labels| ensures !StartsUnlabelled(c, states[i], labels[i], k) {
        LeakStepAt(c, states, labels, i, k);
        assert TimerOk(states[i + 1], k);
      }
    }
    if forall i | 0 <= i < |labels| :: !StartsUnlabelled(c, states[i], labels[i], k) {
      forall t: nat | t < |states| ensures TimerOk(states[t], k) {
        TimerLeaksIffUnlabelled(c, states, labels, t, k);
      }
    }
    forall i: nat | i < |states| && k.name in c.home ensures TimerOk(states[i], k) {
      Reachable(c, states, labels, i);
    }
  }
}
