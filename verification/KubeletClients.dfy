/**
 Which calls find no client, and bring the kubelet down: the client pool is filled by handshakes for the
 node they name, and a node's client goes with its node object.
 */
module KubeletClients {
  import opened Common
  import opened Kubelet
  import opened KubeletSystem
  import opened KubeletInvariants

  /** The node whose client the step would use, if it needs one: to mark a pod ready or to create it. */
  function ClientNeeded(c: Cluster, s: State, l: Label): Option<string> {
    match l
    case LSync(k, o, _) =>
      if k in s.local.queue && SyncStep(c, s, k, o).effect.MarkReady?
      then Some(SyncStep(c, s, k, o).effect.pod.node) else None
    case LExpose(p, _) => if p in s.exposing then Some(p.node) else None
    case _ => None
  }

  /** The kubelet's next step would call a client that is not there. No run takes such a step. */
  predicate Crashes(c: Cluster, s: State, l: Label) {
    ClientNeeded(c, s, l).Some? && ClientNeeded(c, s, l).value !in s.local.clients
  }

  lemma CrashIsNoStep(c: Cluster, s: State, l: Label)
    requires Crashes(c, s, l)
    ensures !Enabled(c, s, l)
  {
  }

  function Handshakes(labels: seq<Label>, node: string): seq<bool> {
    seq(|labels|, i requires 0 <= i < |labels| => labels[i].LHandshake? && labels[i].node == node)
  }

  function NotDeleted(labels: seq<Label>, node: string): seq<bool> {
    seq(|labels|, i requires 0 <= i < |labels| => !(labels[i].LNodeDeleted? && labels[i].node == node))
  }

  /** A handshake named the node, and the node object has not been deleted since. */
  ghost predicate Handshaken(labels: seq<Label>, t: nat, node: string)
    requires t <= |labels|
  {
    exists i: nat :: Since(Handshakes(labels, node), NotDeleted(labels, node), i, t)
  }

  lemma ClientsStep(c: Cluster, s: State, l: Label, node: string)
    requires Enabled(c, s, l)
    ensures node in Apply(c, s, l).local.clients <==>
            || (node in s.local.clients && !(l.LNodeDeleted? && l.node == node))
            || (l.LHandshake? && l.node == node)
  {
    if l.LSync? {
      EffectKeepsLocal(c, s, l);
      SyncSummary(c, s, l.key, l.o);
    }
  }

  /** In a whole run, there is a client for a node if and only if a handshake named it since its last deletion. */
  lemma ClientIffHandshaken(c: Cluster, states: seq<State>, labels: seq<Label>, t: nat, node: string)
    requires IsRun(c, states, labels) && t < |states|
    ensures node in states[t].local.clients <==> Handshaken(labels, t, node)
  {
    var holds := seq(|states|, i requires 0 <= i < |states| => node in states[i].local.clients);
    var cause, keep := Handshakes(labels, node), NotDeleted(labels, node);
    forall i: nat | i < |labels| ensures holds[i + 1] <==> (holds[i] && keep[i]) || cause[i] {
      assert StepAt(c, states, labels, i);
      ClientsStep(c, states[i], labels[i], node);
    }
    HoldsIffCaused(holds, cause, keep, t);
  }

  /**
   In a whole run, a ready write or an expose brings the kubelet down if and only if no handshake has named
   the pod's node since the last deletion of that node.
   */
  lemma CrashIffNotHandshaken(c: Cluster, states: seq<State>, labels: seq<Label>, t: nat, l: Label)
    requires IsRun(c, states, labels) && t < |states| && ClientNeeded(c, states[t], l).Some?
    ensures Crashes(c, states[t], l) <==> !Handshaken(labels, t, ClientNeeded(c, states[t], l).value)
    ensures Crashes(c, states[t], l) ==> !Enabled(c, states[t], l)
  {
    if Crashes(c, states[t], l) { CrashIsNoStep(c, states[t], l); }
    ClientIffHandshaken(c, states, labels, t, ClientNeeded(c, states[t], l).value);
  }

  // ---- a discipline under which no expose crashes ----------------------------------------------

  /** Every accepted bind is to a node with a client, and nodes with in-memory or exposing pods are not deleted. */
  ghost predicate ServedStep(s: State, l: Label) {
    && (Acceptable(s, l) ==> l.info.node in s.local.clients)
    && (l.LNodeDeleted? ==>
          && (forall n | n in s.local.inMem :: s.local.inMem[n].node != l.node)
          && (forall p | p in s.exposing :: p.node != l.node))
  }

  /** Every pod that only the kubelet knows has a client. */
  predicate Served(s: State) {
    && (forall n | n in s.local.inMem :: s.local.inMem[n].node in s.local.clients)
    && (forall p | p in s.exposing :: HasClient(s.local, p))
  }

  lemma ServedSync(c: Cluster, s: State, l: Label)
    requires Served(s) && Enabled(c, s, l) && l.LSync?
    ensures Served(Apply(c, s, l))
  {
    EffectKeepsLocal(c, s, l);
    SyncSummary(c, s, l.key, l.o);
  }

  lemma ServedExpose(s: State, p: Pod, outcome: ExposeOutcome)
    requires Served(s) && p in s.exposing
    ensures Served(ExposeStep(s, p, outcome))
  {
    assert ExposeStep(s, p, outcome).exposing <= s.exposing;
  }

  /** The RPC handlers and the node handler. */
  lemma ServedHandler(c: Cluster, s: State, l: Label)
    requires Served(s) && Enabled(c, s, l) && ServedStep(s, l) && (l.LBindPod? || l.LHandshake? || l.LNodeDeleted?)
    ensures Served(Apply(c, s, l))
  {
  }

  lemma ServedStepKeeps(c: Cluster, s: State, l: Label)
    requires Served(s) && Enabled(c, s, l) && ServedStep(s, l)
    ensures Served(Apply(c, s, l))
  {
    if l.LSync? {
      ServedSync(c, s, l);
    } else if l.LHandle? {
      HandlerOnlyDrops(s.local, s.events[0]);
    } else if l.LExpose? {
      ServedExpose(s, l.pod, l.outcome);
    } else if l.LBindPod? || l.LHandshake? || l.LNodeDeleted? {
      ServedHandler(c, s, l);
    } else {
      assert Apply(c, s, l).exposing == s.exposing && Apply(c, s, l).local.inMem == s.local.inMem;
    }
  }

  /** Under that discipline no expose ever finds its client missing. */
  lemma {:induction false} ExposesNeverCrash(c: Cluster, states: seq<State>, labels: seq<Label>, t: nat, l: Label)
    requires IsRun(c, states, labels) && t < |states| && forall i | 0 <= i < t :: ServedStep(states[i], labels[i])
    ensures Served(states[t]) && (l.LExpose? ==> !Crashes(c, states[t], l))
  {
    if t > 0 {
      ExposesNeverCrash(c, states, labels, t - 1, l);
      assert StepAt(c, states, labels, t - 1);
      assert ServedStep(states[t - 1], labels[t - 1]);
      ServedStepKeeps(c, states[t - 1], labels[t - 1]);
    }
  }
}
