/**
 Conservation laws of the gateway under every interleaving: no request is lost or answered
 twice, the decider's concurrency counts exactly the requests inside, no token is lost or
 made up, a live endpoint keeps its capacity, and reconciliation converges.
 */
module GatewayInvariants {
  import opened Common
  import opened Counting
  import opened Gateway

  // ---- projections -----------------------------------------------------------------------------

  function Reqs(hs: seq<Holding>): seq<Request> { seq(|hs|, i requires 0 <= i < |hs| => hs[i].req) }

  function Eps(hs: seq<Holding>): seq<Endpoint> { seq(|hs|, i requires 0 <= i < |hs| => hs[i].ep) }

  function Sources(rs: seq<Response>): seq<Request> { seq(|rs|, i requires 0 <= i < |rs| => rs[i].source) }

  lemma ReqsAppend(hs: seq<Holding>, h: Holding, r: Request)
    ensures Count(Reqs(hs + [h]), r) == Count(Reqs(hs), r) + One(h.req, r)
  {
    assert Reqs(hs + [h]) == Reqs(hs) + [h.req];
    CountAppend(Reqs(hs), h.req, r);
  }

  lemma ReqsWithout(hs: seq<Holding>, i: nat, r: Request)
    requires i < |hs|
    ensures Count(Reqs(hs), r) == Count(Reqs(Without(hs, i)), r) + One(hs[i].req, r)
  {
    assert Reqs(Without(hs, i)) == Without(Reqs(hs), i);
    CountWithout(Reqs(hs), i, r);
  }

  lemma EpsAppend(hs: seq<Holding>, h: Holding, ep: Endpoint)
    ensures Count(Eps(hs + [h]), ep) == Count(Eps(hs), ep) + One(h.ep, ep)
  {
    assert Eps(hs + [h]) == Eps(hs) + [h.ep];
    CountAppend(Eps(hs), h.ep, ep);
  }

  lemma EpsWithout(hs: seq<Holding>, i: nat, ep: Endpoint)
    requires i < |hs|
    ensures Count(Eps(hs), ep) == Count(Eps(Without(hs, i)), ep) + One(hs[i].ep, ep)
  {
    assert Eps(Without(hs, i)) == Without(Eps(hs), i);
    CountWithout(Eps(hs), i, ep);
  }

  lemma SourcesAppend(rs: seq<Response>, res: Response, r: Request)
    ensures Count(Sources(rs + [res]), r) == Count(Sources(rs), r) + One(res.source, r)
  {
    assert Sources(rs + [res]) == Sources(rs) + [res.source];
    CountAppend(Sources(rs), res.source, r);
  }

  lemma SourcesWithout(rs: seq<Response>, i: nat, r: Request)
    requires i < |rs|
    ensures Count(Sources(rs), r) == Count(Sources(Without(rs, i)), r) + One(rs[i].source, r)
  {
    assert Sources(Without(rs, i)) == Without(Sources(rs), i);
    CountWithout(Sources(rs), i, r);
  }

  lemma {:induction false} SameCount(n: nat, ep: Endpoint, k: Endpoint)
    ensures Count(seq(n, _ => ep), k) == n * One(ep, k)
  {
    if n > 0 {
      SameCount(n - 1, ep, k);
      assert seq(n, _ => ep) == seq(n - 1, _ => ep) + [ep];
      CountAppend(seq(n - 1, _ => ep), ep, k);
    }
  }

  lemma CopiesCount(ep: Endpoint, k: Endpoint)
    ensures Count(Copies(ep), k) == PodServiceConcurrency * One(ep, k)
  {
    SameCount(PodServiceConcurrency, ep, k);
    assert Copies(ep) == seq(PodServiceConcurrency, _ => ep);
  }

  // ---- requests --------------------------------------------------------------------------------

  function InHand(h: Hand, r: Request): nat {
    match h
    case Empty => 0
    case Forwarding(req) => One(req, r)
    case Returning(res) => One(res.source, r)
  }

  /** How often `r` has been taken in and not yet answered to the outside. */
  function Inside(s: State, r: Request): nat {
    InHand(s.hand, r) + Count(s.inBuf, r) + Count(s.waiting, r) + Count(Reqs(s.checking), r)
    + Count(Reqs(s.running), r) + Count(Sources(s.replying), r) + Count(Sources(s.outBuf), r)
  }

  function Answered(s: State, r: Request): nat { Count(Sources(s.emitted), r) }

  /** Every time `r` was taken it is now inside or answered. */
  predicate Conserved(s: State, r: Request) { Count(s.taken, r) == Answered(s, r) + Inside(s, r) }

  lemma ConservedRefuse(target: string, s: State, r: Request)
    requires Conserved(s, r) && Enabled(s, RelayTake) && s.external[0].target != target
    ensures Conserved(Apply(target, s, RelayTake), r)
  {
    CountAppend(s.taken, s.external[0], r);
    SourcesAppend(s.emitted, Response(s.external[0], InvalidTarget), r);
  }

  lemma ConservedTake(target: string, s: State, r: Request)
    requires Conserved(s, r) && Enabled(s, RelayTake) && s.external[0].target == target
    ensures Conserved(Apply(target, s, RelayTake), r)
  {
    CountAppend(s.taken, s.external[0], r);
  }

  lemma ConservedRelay(target: string, s: State, l: Label, r: Request)
    requires Conserved(s, r) && Enabled(s, l) && (l.RelayForward? || l.RelayReturn? || l.RelayEmit?)
    ensures Conserved(Apply(target, s, l), r)
  {
    match l
    case RelayForward => CountAppend(s.inBuf, s.hand.req, r);
    case RelayReturn =>
      SourcesWithout(s.outBuf, 0, r);
      assert Without(s.outBuf, 0) == s.outBuf[1..];
    case RelayEmit => SourcesAppend(s.emitted, s.hand.res, r);
  }

  lemma ConservedDispatch(target: string, s: State, l: Label, r: Request)
    requires Conserved(s, r) && Enabled(s, l) && (l.StartDispatch? || l.TakeToken? || l.Timeout?)
    ensures Conserved(Apply(target, s, l), r)
  {
    match l
    case StartDispatch =>
      CountTail(s.inBuf, r);
      CountAppend(s.waiting, s.inBuf[0], r);
    case TakeToken(i) =>
      CountWithout(s.waiting, i, r);
      ReqsAppend(s.checking, Holding(s.waiting[i], s.tokens[0]), r);
    case Timeout(i) =>
      CountWithout(s.waiting, i, r);
      SourcesAppend(s.replying, Response(s.waiting[i], FailDispatch), r);
  }

  lemma ConservedCheck(target: string, s: State, i: nat, r: Request)
    requires Conserved(s, r) && Enabled(s, CheckToken(i))
    ensures Conserved(Apply(target, s, CheckToken(i)), r)
  {
    ReqsWithout(s.checking, i, r);
    if s.checking[i].ep in s.endpoints {
      ReqsAppend(s.running, s.checking[i], r);
    } else {
      CountAppend(s.waiting, s.checking[i].req, r);
    }
  }

  lemma ConservedReply(target: string, s: State, l: Label, r: Request)
    requires Conserved(s, r) && Enabled(s, l) && (l.Finish? || l.Reply?)
    ensures Conserved(Apply(target, s, l), r)
  {
    match l
    case Finish(i, status) =>
      ReqsWithout(s.running, i, r);
      SourcesAppend(s.replying, Response(s.running[i].req, status), r);
    case Reply(i) =>
      SourcesWithout(s.replying, i, r);
      SourcesAppend(s.outBuf, s.replying[i], r);
  }

  lemma ConservedStep(target: string, s: State, l: Label, r: Request)
    requires Conserved(s, r) && Enabled(s, l)
    ensures Conserved(Apply(target, s, l), r)
  {
    if l.RelayTake? {
      if s.external[0].target == target { ConservedTake(target, s, r); } else { ConservedRefuse(target, s, r); }
    } else if l.RelayForward? || l.RelayReturn? || l.RelayEmit? {
      ConservedRelay(target, s, l, r);
    } else if l.StartDispatch? || l.TakeToken? || l.Timeout? {
      ConservedDispatch(target, s, l, r);
    } else if l.CheckToken? {
      ConservedCheck(target, s, l.i, r);
    } else if l.Finish? || l.Reply? {
      ConservedReply(target, s, l, r);
    }
  }

  // ---- the decider's concurrency ---------------------------------------------------------------

  /** Requests of this target between the two ends of the relay: buffered, dispatching, or on the way back. */
  function Outstanding(s: State): nat {
    |s.inBuf| + |s.waiting| + |s.checking| + |s.running| + |s.replying| + |s.outBuf|
    + if s.hand.Forwarding? then 1 else 0
  }

  predicate OnTarget(target: string, rs: seq<Request>) { forall i | 0 <= i < |rs| :: rs[i].target == target }

  /** The counter that ReqIn and ReqOut drive is the number of outstanding requests, all for this target. */
  predicate Counted(target: string, s: State) {
    && s.concurrency == Outstanding(s)
    && (s.hand.Forwarding? ==> s.hand.req.target == target)
    && (s.hand.Returning? ==> s.hand.res.source.target == target)
    && OnTarget(target, s.inBuf) && OnTarget(target, s.waiting)
    && (forall i | 0 <= i < |s.checking| :: s.checking[i].req.target == target)
    && (forall i | 0 <= i < |s.running| :: s.running[i].req.target == target)
    && (forall i | 0 <= i < |s.replying| :: s.replying[i].source.target == target)
    && (forall i | 0 <= i < |s.outBuf| :: s.outBuf[i].source.target == target)
  }

  lemma CountedRelay(target: string, s: State, l: Label)
    requires Counted(target, s) && Enabled(s, l) && (l.RelayTake? || l.RelayForward? || l.RelayReturn? || l.RelayEmit?)
    ensures Counted(target, Apply(target, s, l))
  {
  }

  lemma CountedDispatch(target: string, s: State, l: Label)
    requires Counted(target, s) && Enabled(s, l) && (l.StartDispatch? || l.TakeToken? || l.Timeout?)
    ensures Counted(target, Apply(target, s, l))
  {
  }

  lemma CountedCheck(target: string, s: State, i: nat)
    requires Counted(target, s) && Enabled(s, CheckToken(i))
    ensures Counted(target, Apply(target, s, CheckToken(i)))
  {
  }

  lemma CountedFinish(target: string, s: State, i: nat, status: Status)
    requires Counted(target, s) && Enabled(s, Finish(i, status))
    ensures Counted(target, Apply(target, s, Finish(i, status)))
  {
  }

  lemma CountedReply(target: string, s: State, i: nat)
    requires Counted(target, s) && Enabled(s, Reply(i))
    ensures Counted(target, Apply(target, s, Reply(i)))
  {
  }

  lemma CountedStep(target: string, s: State, l: Label)
    requires Counted(target, s) && Enabled(s, l)
    ensures Counted(target, Apply(target, s, l))
  {
    if l.RelayTake? || l.RelayForward? || l.RelayReturn? || l.RelayEmit? {
      CountedRelay(target, s, l);
    } else if l.StartDispatch? || l.TakeToken? || l.Timeout? {
      CountedDispatch(target, s, l);
    } else if l.CheckToken? {
      CountedCheck(target, s, l.i);
    } else if l.Finish? {
      CountedFinish(target, s, l.i, l.status);
    } else if l.Reply? {
      CountedReply(target, s, l.i);
    }
  }

  // ---- tokens ----------------------------------------------------------------------------------

  /** The tokens of `ep` still around: queued, on their way into the queue, being checked, or held. */
  function Alive(s: State, ep: Endpoint): nat {
    Count(s.tokens, ep) + Count(s.pending, ep) + Count(Eps(s.checking), ep) + Count(Eps(s.running), ep)
  }

  /** Tokens of `ep` are neither lost nor made up, and a live endpoint keeps at least its own. */
  predicate TokensOk(s: State, ep: Endpoint) {
    && Alive(s, ep) + Count(s.discarded, ep) == PodServiceConcurrency * Count(s.adds, ep)
    && (ep in s.endpoints ==> Alive(s, ep) >= PodServiceConcurrency)
  }

  lemma TokensTake(target: string, s: State, i: nat, ep: Endpoint)
    requires TokensOk(s, ep) && Enabled(s, TakeToken(i))
    ensures TokensOk(Apply(target, s, TakeToken(i)), ep)
  {
    CountTail(s.tokens, ep);
    EpsAppend(s.checking, Holding(s.waiting[i], s.tokens[0]), ep);
  }

  lemma TokensLive(s: State, i: nat, ep: Endpoint)
    requires i < |s.checking| && TokensOk(s, ep)
    ensures TokensOk(s.(checking := Without(s.checking, i), running := s.running + [s.checking[i]]), ep)
  {
    EpsWithout(s.checking, i, ep);
    EpsAppend(s.running, s.checking[i], ep);
  }

  lemma TokensStale(s: State, i: nat, waiting: seq<Request>, ep: Endpoint)
    requires i < |s.checking| && TokensOk(s, ep) && s.checking[i].ep !in s.endpoints
    ensures TokensOk(s.(checking := Without(s.checking, i), waiting := waiting,
                        discarded := s.discarded + [s.checking[i].ep]), ep)
  {
    EpsWithout(s.checking, i, ep);
    CountAppend(s.discarded, s.checking[i].ep, ep);
  }

  lemma TokensCheck(target: string, s: State, i: nat, ep: Endpoint)
    requires TokensOk(s, ep) && Enabled(s, CheckToken(i))
    ensures TokensOk(Apply(target, s, CheckToken(i)), ep)
  {
    var h := s.checking[i];
    if h.ep in s.endpoints {
      TokensLive(s, i, ep);
    } else {
      TokensStale(s, i, s.waiting + [h.req], ep);
    }
  }

  lemma TokensFinish(target: string, s: State, i: nat, status: Status, ep: Endpoint)
    requires TokensOk(s, ep) && Enabled(s, Finish(i, status))
    ensures TokensOk(Apply(target, s, Finish(i, status)), ep)
  {
    EpsWithout(s.running, i, ep);
    CountAppend(s.tokens, s.running[i].ep, ep);
  }

  lemma TokensReconcile(target: string, s: State, l: Label, ep: Endpoint)
    requires TokensOk(s, ep) && Enabled(s, l) && (l.PushToken? || l.AddOk? || l.Remove?)
    ensures TokensOk(Apply(target, s, l), ep)
  {
    if l.PushToken? {
      CountWithout(s.pending, l.i, ep);
      CountAppend(s.tokens, s.pending[l.i], ep);
    } else if l.AddOk? {
      CountConcat(s.pending, Copies(l.ep), ep);
      CopiesCount(l.ep, ep);
      CountAppend(s.adds, l.ep, ep);
    }
  }

  /** Steps of the relay, and those that only move requests, leave tokens and endpoints alone. */
  lemma TokensFrame(target: string, s: State, l: Label)
    requires Enabled(s, l)
    requires !l.TakeToken? && !l.CheckToken? && !l.Finish? && !l.PushToken? && !l.AddOk? && !l.Remove?
    ensures var s' := Apply(target, s, l);
      && s'.tokens == s.tokens && s'.pending == s.pending && s'.checking == s.checking && s'.running == s.running
      && s'.discarded == s.discarded && s'.adds == s.adds && s'.endpoints == s.endpoints
  {
  }

  lemma TokensStep(target: string, s: State, l: Label, ep: Endpoint)
    requires TokensOk(s, ep) && Enabled(s, l)
    ensures TokensOk(Apply(target, s, l), ep)
  {
    if l.TakeToken? {
      TokensTake(target, s, l.i, ep);
    } else if l.CheckToken? {
      TokensCheck(target, s, l.i, ep);
    } else if l.Finish? {
      TokensFinish(target, s, l.i, l.status, ep);
    } else if l.PushToken? || l.AddOk? || l.Remove? {
      TokensReconcile(target, s, l, ep);
    } else {
      TokensFrame(target, s, l);
    }
  }

  // ---- reconciliation --------------------------------------------------------------------------

  /** Progress of a Reconcile call, whatever else runs meanwhile. */
  predicate RecKeys(s: State) {
    s.rec.Busy? ==>
      && s.rec.toAdd <= s.rec.desired - s.rec.before.Keys && s.rec.failed <= s.rec.desired - s.rec.before.Keys
      && s.rec.toAdd !! s.rec.failed
      && s.rec.toDel <= s.rec.before.Keys - s.rec.desired
      && s.endpoints.Keys == (s.rec.desired - s.rec.toAdd - s.rec.failed) + s.rec.toDel
      && (forall k | k in s.rec.before && k in s.rec.desired :: Lookup(s.endpoints, k) == Some(s.rec.before[k]))
  }

  /** An endpoint was added in this call if it is new, done and did not fail. */
  predicate AddedNow(rec: Reconciling, k: Endpoint) {
    rec.Busy? && k in rec.desired && k !in rec.before && k !in rec.toAdd && k !in rec.failed
  }

  predicate RecAdds(s: State, k: Endpoint) {
    && (s.rec.Idle? ==> s.pending == [])
    && (s.rec.Busy? ==> Count(s.adds, k) == Count(s.rec.addsBefore, k) + if AddedNow(s.rec, k) then 1 else 0)
  }

  lemma RecKeysStep(target: string, s: State, l: Label)
    requires RecKeys(s) && Enabled(s, l)
    ensures RecKeys(Apply(target, s, l))
  {
    if !(l.BeginReconcile? || l.AddOk? || l.AddFail? || l.Remove? || l.EndReconcile? || l.PushToken?) {
      RecFrame(target, s, l);
    }
  }

  lemma RecAddsReconcile(target: string, s: State, l: Label, k: Endpoint)
    requires RecKeys(s) && RecAdds(s, k) && Enabled(s, l)
    requires l.BeginReconcile? || l.AddOk? || l.AddFail? || l.Remove? || l.EndReconcile? || l.PushToken?
    ensures RecAdds(Apply(target, s, l), k)
  {
    if l.AddOk? { CountAppend(s.adds, l.ep, k); }
  }

  lemma RecAddsStep(target: string, s: State, l: Label, k: Endpoint)
    requires RecKeys(s) && RecAdds(s, k) && Enabled(s, l)
    ensures RecAdds(Apply(target, s, l), k)
  {
    if l.BeginReconcile? || l.AddOk? || l.AddFail? || l.Remove? || l.EndReconcile? || l.PushToken? {
      RecAddsReconcile(target, s, l, k);
    } else {
      RecFrame(target, s, l);
    }
  }

  /** Relay and dispatch steps do not concern a Reconcile in progress. */
  lemma RecFrame(target: string, s: State, l: Label)
    requires Enabled(s, l)
    requires !l.BeginReconcile? && !l.AddOk? && !l.AddFail? && !l.Remove? && !l.EndReconcile? && !l.PushToken?
    ensures var s' := Apply(target, s, l);
      s'.rec == s.rec && s'.adds == s.adds && s'.pending == s.pending && s'.endpoints == s.endpoints
  {
  }

  // ---- whole runs ------------------------------------------------------------------------------

  ghost predicate Inv(target: string, s: State) {
    && (forall r :: Conserved(s, r)) && Counted(target, s)
    && (forall ep :: TokensOk(s, ep)) && RecKeys(s) && (forall ep :: RecAdds(s, ep))
  }

  lemma InvStep(target: string, s: State, l: Label)
    requires Inv(target, s) && Enabled(s, l)
    ensures Inv(target, Apply(target, s, l))
  {
    var s' := Apply(target, s, l);
    forall r ensures Conserved(s', r) { ConservedStep(target, s, l, r); }
    CountedStep(target, s, l);
    forall ep ensures TokensOk(s', ep) { TokensStep(target, s, l, ep); }
    RecKeysStep(target, s, l);
    forall ep ensures RecAdds(s', ep) { RecAddsStep(target, s, l, ep); }
  }

  lemma InvInitial(target: string, s: State)
    requires Initial(s)
    ensures Inv(target, s)
  {
  }

  lemma {:induction false} Reachable(target: string, states: seq<State>, labels: seq<Label>, i: nat)
    requires IsRun(target, states, labels) && i < |states|
    ensures Inv(target, states[i])
  {
    if i == 0 {
      InvInitial(target, states[0]);
    } else {
      Reachable(target, states, labels, i - 1);
      assert StepAt(target, states, labels, i - 1);
      InvStep(target, states[i - 1], labels[i - 1]);
    }
  }

  // ---- what a run promises ---------------------------------------------------------------------

  /** How often `r` was submitted to this target's input by the first `n` steps. */
  function Submitted(labels: seq<Label>, n: nat, r: Request): nat
    requires n <= |labels|
  {
    if n == 0 then 0 else Submitted(labels, n - 1, r) + if labels[n - 1] == Submit(r) then 1 else 0
  }

  lemma OutsideStep(target: string, s: State, l: Label, r: Request)
    requires Enabled(s, l)
    ensures var s' := Apply(target, s, l);
      Count(s'.external, r) + Count(s'.taken, r) ==
      Count(s.external, r) + Count(s.taken, r) + if l == Submit(r) then 1 else 0
  {
    if l.Submit? {
      CountAppend(s.external, l.req, r);
    } else if l.RelayTake? {
      CountTail(s.external, r);
      CountAppend(s.taken, s.external[0], r);
    }
  }

  lemma {:induction false} OutsideConserved(target: string, states: seq<State>, labels: seq<Label>, n: nat, r: Request)
    requires IsRun(target, states, labels) && n < |states|
    ensures Submitted(labels, n, r) == Count(states[n].external, r) + Count(states[n].taken, r)
  {
    if n > 0 {
      OutsideConserved(target, states, labels, n - 1, r);
      assert StepAt(target, states, labels, n - 1);
      OutsideStep(target, states[n - 1], labels[n - 1], r);
    }
  }

  /**
   At any point of any run, each submission of a request is still outside, inside, or answered, and
   is counted exactly once: no request is lost, and none is answered more often than it was submitted.
   */
  lemma RequestsAreConserved(target: string, states: seq<State>, labels: seq<Label>, n: nat, r: Request)
    requires IsRun(target, states, labels) && n < |states|
    ensures Submitted(labels, n, r) == Count(states[n].external, r) + Inside(states[n], r) + Answered(states[n], r)
  {
    OutsideConserved(target, states, labels, n, r);
    Reachable(target, states, labels, n);
    assert Conserved(states[n], r);
  }

  /** The decider's concurrency is the number of outstanding requests of its target, hence never negative. */
  lemma ConcurrencyIsOutstanding(target: string, states: seq<State>, labels: seq<Label>, n: nat)
    requires IsRun(target, states, labels) && n < |states|
    ensures states[n].concurrency == Outstanding(states[n]) >= 0
    ensures OnTarget(target, states[n].inBuf + states[n].waiting + Reqs(states[n].checking) + Reqs(states[n].running))
    ensures OnTarget(target, Sources(states[n].replying + states[n].outBuf))
  {
    Reachable(target, states, labels, n);
  }

  /** Executions in flight on an endpoint never outnumber the tokens its adds put into circulation. */
  lemma ExecutionsAreBounded(target: string, states: seq<State>, labels: seq<Label>, n: nat, ep: Endpoint)
    requires IsRun(target, states, labels) && n < |states|
    ensures Alive(states[n], ep) + Count(states[n].discarded, ep) == PodServiceConcurrency * Count(states[n].adds, ep)
    ensures Count(states[n].adds, ep) <= 1 ==> Count(Eps(states[n].running), ep) <= 1
  {
    Reachable(target, states, labels, n);
    assert TokensOk(states[n], ep);
  }

  /** A live endpoint whose add has completed has its tokens queued, being checked or held. */
  lemma LiveEndpointKeepsCapacity(target: string, states: seq<State>, labels: seq<Label>, n: nat, ep: Endpoint)
    requires IsRun(target, states, labels) && n < |states|
    requires ep in states[n].endpoints && Count(states[n].pending, ep) == 0
    ensures Count(states[n].tokens, ep) + Count(Eps(states[n].checking), ep) +
            Count(Eps(states[n].running), ep) >= PodServiceConcurrency
  {
    Reachable(target, states, labels, n);
    assert TokensOk(states[n], ep);
  }

  lemma BusyStep(target: string, s: State, l: Label)
    requires Enabled(s, l) && Apply(target, s, l).rec.Busy?
    ensures var r := Apply(target, s, l).rec;
      if l.BeginReconcile? then r.before == s.endpoints && r.addsBefore == s.adds && r.desired == l.desired
      else
        && s.rec.Busy? && !l.EndReconcile?
        && r.before == s.rec.before && r.addsBefore == s.rec.addsBefore && r.desired == s.rec.desired
  {
  }

  /** A Reconcile in progress at state `n` was begun at some step `b` and remembers what it found there. */
  lemma {:induction false} BegunAt(target: string, states: seq<State>, labels: seq<Label>, n: nat) returns (b: nat)
    requires IsRun(target, states, labels) && n < |states| && states[n].rec.Busy?
    ensures b < n && labels[b] == BeginReconcile(states[n].rec.desired)
    ensures states[n].rec.before == states[b].endpoints && states[n].rec.addsBefore == states[b].adds
    ensures forall m | b < m < n :: !labels[m].BeginReconcile? && !labels[m].EndReconcile?
  {
    assert StepAt(target, states, labels, n - 1);
    BusyStep(target, states[n - 1], labels[n - 1]);
    if labels[n - 1].BeginReconcile? {
      b := n - 1;
    } else {
      b := BegunAt(target, states, labels, n - 1);
    }
  }

  predicate Converged(start: State, end: State, desired: set<Endpoint>, failed: set<Endpoint>) {
    && end.endpoints.Keys == desired - failed
    && (forall k | k in start.endpoints && k in desired :: Lookup(end.endpoints, k) == Some(start.endpoints[k]))
  }

  lemma FewerErrorsThanEndpoints(failed: set<Endpoint>, desired: set<Endpoint>)
    requires failed <= desired
    ensures |failed| <= |desired|
  {
    assert desired == failed + (desired - failed);
  }

  /**
   When a Reconcile ends, however it was interleaved with dispatching: the endpoints are the desired
   ones minus those whose backend failed, kept endpoints have their old executor and no new token,
   each new one was added exactly once, and the error channel had room for every error.
   */
  lemma ReconcileConverges(target: string, states: seq<State>, labels: seq<Label>, n: nat) returns (b: nat)
    requires IsRun(target, states, labels) && n < |labels| && labels[n].EndReconcile?
            && StepAt(target, states, labels, n)
    ensures b < n && labels[b] == BeginReconcile(states[n].rec.desired)
    ensures Converged(states[b], states[n + 1], states[n].rec.desired, states[n].rec.failed)
    ensures states[n].rec.failed <= states[n].rec.desired - states[b].endpoints.Keys
            && |states[n].rec.failed| <= |states[n].rec.desired|
    ensures forall k :: Count(states[n + 1].adds, k) ==
              Count(states[b].adds, k) + if k in states[n + 1].endpoints && k !in states[b].endpoints then 1 else 0
  {
    Reachable(target, states, labels, n);
    b := BegunAt(target, states, labels, n);
    FewerErrorsThanEndpoints(states[n].rec.failed, states[n].rec.desired);
    forall k ensures Count(states[n + 1].adds, k) ==
              Count(states[b].adds, k) + if k in states[n + 1].endpoints && k !in states[b].endpoints then 1 else 0
    {
      assert RecAdds(states[n], k);
    }
  }

  // ---- what the responses say ------------------------------------------------------------------

  /** How often exactly this response is on its way out, or out. */
  function Held(s: State, res: Response): nat {
    Count(s.replying, res) + Count(s.outBuf, res) + (if s.hand == Returning(res) then 1 else 0) + Count(s.emitted, res)
  }

  /** The step gives this answer: an execution ended so, a dispatch timed out, or a request was refused. */
  predicate Gives(target: string, s: State, l: Label, res: Response) {
    || (l.Finish? && l.i < |s.running| && s.running[l.i].req == res.source && l.status == res.status)
    || (l.Timeout? && l.i < |s.waiting| && s.waiting[l.i] == res.source && res.status == FailDispatch)
    || (l.RelayTake? && [res.source] <= s.external && res.source.target != target && res.status == InvalidTarget)
  }

  lemma HeldRelay(target: string, s: State, l: Label, res: Response)
    requires Enabled(s, l) && (l.RelayTake? || l.RelayForward? || l.RelayReturn? || l.RelayEmit?)
    ensures Held(Apply(target, s, l), res) == Held(s, res) + if Gives(target, s, l, res) then 1 else 0
  {
    match l
    case RelayTake => CountAppend(s.emitted, Response(s.external[0], InvalidTarget), res);
    case RelayForward =>
    case RelayReturn => CountTail(s.outBuf, res);
    case RelayEmit => CountAppend(s.emitted, s.hand.res, res);
  }

  lemma HeldFinish(target: string, s: State, i: nat, status: Status, res: Response)
    requires Enabled(s, Finish(i, status))
    ensures var l := Finish(i, status);
      Held(Apply(target, s, l), res) == Held(s, res) + if Gives(target, s, l, res) then 1 else 0
  {
    CountAppend(s.replying, Response(s.running[i].req, status), res);
  }

  lemma HeldTimeout(target: string, s: State, i: nat, res: Response)
    requires Enabled(s, Timeout(i))
    ensures Held(Apply(target, s, Timeout(i)), res) == Held(s, res) + if Gives(target, s, Timeout(i), res) then 1 else 0
  {
    CountAppend(s.replying, Response(s.waiting[i], FailDispatch), res);
  }

  lemma HeldReply(target: string, s: State, i: nat, res: Response)
    requires Enabled(s, Reply(i))
    ensures Held(Apply(target, s, Reply(i)), res) == Held(s, res)
  {
    CountWithout(s.replying, i, res);
    CountAppend(s.outBuf, s.replying[i], res);
  }

  /** The other steps leave all responses where they are. */
  lemma HeldFrame(target: string, s: State, l: Label)
    requires Enabled(s, l) && !l.RelayTake? && !l.RelayForward? && !l.RelayReturn? && !l.RelayEmit?
    requires !l.Finish? && !l.Timeout? && !l.Reply?
    ensures var s' := Apply(target, s, l);
      s'.replying == s.replying && s'.outBuf == s.outBuf && s'.hand == s.hand && s'.emitted == s.emitted
  {
  }

  lemma HeldStep(target: string, s: State, l: Label, res: Response)
    requires Enabled(s, l)
    ensures Held(Apply(target, s, l), res) == Held(s, res) + if Gives(target, s, l, res) then 1 else 0
  {
    if l.RelayTake? || l.RelayForward? || l.RelayReturn? || l.RelayEmit? {
      HeldRelay(target, s, l, res);
    } else if l.Finish? {
      HeldFinish(target, s, l.i, l.status, res);
    } else if l.Timeout? {
      HeldTimeout(target, s, l.i, res);
    } else if l.Reply? {
      HeldReply(target, s, l.i, res);
    } else {
      HeldFrame(target, s, l);
    }
  }

  /** How often the first `n` steps gave this answer. */
  function Given(target: string, states: seq<State>, labels: seq<Label>, n: nat, res: Response): nat
    requires |states| == |labels| + 1 && n <= |labels|
  {
    if n == 0 then 0
    else
      Given(target, states, labels, n - 1, res)
      + if Gives(target, states[n - 1], labels[n - 1], res) then 1 else 0
  }

  /**
   At any point of any run, a response is on its way out or out exactly as often as an execution of its
   request ended with its status, its dispatch timed out, or it was refused for its target.
   */
  lemma {:induction false} ResponsesAreTrue(
      target: string, states: seq<State>, labels: seq<Label>, n: nat, res: Response)
    requires IsRun(target, states, labels) && n < |states|
    ensures Held(states[n], res) == Given(target, states, labels, n, res)
  {
    if n > 0 {
      ResponsesAreTrue(target, states, labels, n - 1, res);
      assert StepAt(target, states, labels, n - 1);
      HeldStep(target, states[n - 1], labels[n - 1], res);
    }
  }

  // ---- what becomes of a token -----------------------------------------------------------------

  /** The step takes the token of `h` for the request of `h`. */
  predicate Takes(s: State, l: Label, h: Holding) {
    l.TakeToken? && l.i < |s.waiting| && s.tokens != [] && Holding(s.waiting[l.i], s.tokens[0]) == h
  }

  predicate Checks(s: State, l: Label, h: Holding) { l.CheckToken? && l.i < |s.checking| && s.checking[l.i] == h }

  predicate Finishes(s: State, l: Label, h: Holding) { l.Finish? && l.i < |s.running| && s.running[l.i] == h }

  /** Some check finds the endpoint gone. */
  predicate FindsGone(s: State, l: Label, ep: Endpoint) {
    l.CheckToken? && l.i < |s.checking| && s.checking[l.i].ep == ep && ep !in s.endpoints
  }

  lemma CheckingStep(target: string, s: State, l: Label, h: Holding)
    requires Enabled(s, l)
    ensures Count(Apply(target, s, l).checking, h) + (if Checks(s, l, h) then 1 else 0) ==
            Count(s.checking, h) + (if Takes(s, l, h) then 1 else 0)
  {
    if l.TakeToken? {
      CountAppend(s.checking, Holding(s.waiting[l.i], s.tokens[0]), h);
    } else if l.CheckToken? {
      CountWithout(s.checking, l.i, h);
    }
  }

  lemma RunningCheck(target: string, s: State, i: nat, h: Holding)
    requires Enabled(s, CheckToken(i))
    ensures Count(Apply(target, s, CheckToken(i)).running, h) ==
            Count(s.running, h) + (if s.checking[i] == h && h.ep in s.endpoints then 1 else 0)
  {
    CountAppend(s.running, s.checking[i], h);
  }

  lemma RunningFrame(target: string, s: State, l: Label)
    requires Enabled(s, l) && !l.CheckToken? && !l.Finish?
    ensures Apply(target, s, l).running == s.running
  {
  }

  lemma RunningStep(target: string, s: State, l: Label, h: Holding)
    requires Enabled(s, l)
    ensures Count(Apply(target, s, l).running, h) + (if Finishes(s, l, h) then 1 else 0) ==
            Count(s.running, h) + (if Checks(s, l, h) && h.ep in s.endpoints then 1 else 0)
  {
    if l.CheckToken? {
      RunningCheck(target, s, l.i, h);
    } else if l.Finish? {
      CountWithout(s.running, l.i, h);
    } else {
      RunningFrame(target, s, l);
    }
  }

  lemma DiscardedStep(target: string, s: State, l: Label, ep: Endpoint)
    requires Enabled(s, l)
    ensures Count(Apply(target, s, l).discarded, ep) == Count(s.discarded, ep) + (if FindsGone(s, l, ep) then 1 else 0)
  {
    if l.CheckToken? { CountAppend(s.discarded, s.checking[l.i].ep, ep); }
  }

  /** The steps of a run for which `p` holds. */
  function Flags(states: seq<State>, labels: seq<Label>, p: (State, Label) -> bool): seq<bool>
    requires |states| == |labels| + 1
  {
    seq(|labels|, i requires 0 <= i < |labels| => p(states[i], labels[i]))
  }

  /**
   In any run, the tokens being checked for a request are those taken for it and not yet checked, its executions
   in flight are the checks that found the endpoint live and have not finished, and the discarded tokens of an
   endpoint are the checks that found it gone.
   */
  lemma TokensGoWhereChecked(target: string, states: seq<State>, labels: seq<Label>, n: nat, h: Holding)
    requires IsRun(target, states, labels) && n < |states|
    ensures Count(states[n].checking, h) + Trues(Flags(states, labels, (s, l) => Checks(s, l, h)), n) ==
            Trues(Flags(states, labels, (s, l) => Takes(s, l, h)), n)
    ensures Count(states[n].running, h) + Trues(Flags(states, labels, (s, l) => Finishes(s, l, h)), n) ==
            Trues(Flags(states, labels, (s: State, l: Label) => Checks(s, l, h) && h.ep in s.endpoints), n)
    ensures Count(states[n].discarded, h.ep) == Trues(Flags(states, labels, (s, l) => FindsGone(s, l, h.ep)), n)
  {
    CheckingFlow(target, states, labels, n, h);
    RunningFlow(target, states, labels, n, h);
    DiscardedFlow(target, states, labels, n, h.ep);
  }

  lemma CheckingFlow(target: string, states: seq<State>, labels: seq<Label>, n: nat, h: Holding)
    requires IsRun(target, states, labels) && n < |states|
    ensures Count(states[n].checking, h) + Trues(Flags(states, labels, (s, l) => Checks(s, l, h)), n) ==
            Trues(Flags(states, labels, (s, l) => Takes(s, l, h)), n)
  {
    var held := seq(|states|, i requires 0 <= i < |states| => Count(states[i].checking, h));
    var ins := Flags(states, labels, (s, l) => Takes(s, l, h));
    var outs := Flags(states, labels, (s, l) => Checks(s, l, h));
    forall i: nat | i < |labels|
      ensures held[i + 1] + (if outs[i] then 1 else 0) == held[i] + (if ins[i] then 1 else 0)
    {
      assert StepAt(target, states, labels, i);
      CheckingStep(target, states[i], labels[i], h);
    }
    InMinusOut(held, ins, outs, n);
  }

  lemma RunningFlow(target: string, states: seq<State>, labels: seq<Label>, n: nat, h: Holding)
    requires IsRun(target, states, labels) && n < |states|
    ensures Count(states[n].running, h) + Trues(Flags(states, labels, (s, l) => Finishes(s, l, h)), n) ==
            Trues(Flags(states, labels, (s: State, l: Label) => Checks(s, l, h) && h.ep in s.endpoints), n)
  {
    var held := seq(|states|, i requires 0 <= i < |states| => Count(states[i].running, h));
    var ins := Flags(states, labels, (s: State, l: Label) => Checks(s, l, h) && h.ep in s.endpoints);
    var outs := Flags(states, labels, (s, l) => Finishes(s, l, h));
    forall i: nat | i < |labels|
      ensures held[i + 1] + (if outs[i] then 1 else 0) == held[i] + (if ins[i] then 1 else 0)
    {
      assert StepAt(target, states, labels, i);
      RunningStep(target, states[i], labels[i], h);
    }
    InMinusOut(held, ins, outs, n);
  }

  lemma DiscardedFlow(target: string, states: seq<State>, labels: seq<Label>, n: nat, ep: Endpoint)
    requires IsRun(target, states, labels) && n < |states|
    ensures Count(states[n].discarded, ep) == Trues(Flags(states, labels, (s, l) => FindsGone(s, l, ep)), n)
  {
    var held := seq(|states|, i requires 0 <= i < |states| => Count(states[i].discarded, ep));
    var ins := Flags(states, labels, (s, l) => FindsGone(s, l, ep));
    var outs := seq(|labels|, _ => false);
    forall i: nat | i < |labels|
      ensures held[i + 1] + (if outs[i] then 1 else 0) == held[i] + (if ins[i] then 1 else 0)
    {
      assert StepAt(target, states, labels, i);
      DiscardedStep(target, states[i], labels[i], ep);
    }
    InMinusOut(held, ins, outs, n);
    NoneTrue(outs, n);
  }

  lemma {:induction false} NoneTrue(flags: seq<bool>, n: nat)
    requires n <= |flags| && forall i | 0 <= i < |flags| :: !flags[i]
    ensures Trues(flags, n) == 0
  {
    if n > 0 { NoneTrue(flags, n - 1); }
  }

  // ---- order -----------------------------------------------------------------------------------

  /** The requests for this target, in order. */
  function ForTarget(target: string, rs: seq<Request>): seq<Request> {
    if rs == [] then []
    else if rs[0].target == target then [rs[0]] + ForTarget(target, rs[1..])
    else ForTarget(target, rs[1..])
  }

  lemma {:induction false} ForTargetConcat(target: string, a: seq<Request>, b: seq<Request>)
    ensures ForTarget(target, a + b) == ForTarget(target, a) + ForTarget(target, b)
  {
    if a == [] {
      assert a + b == b;
    } else {
      assert (a + b)[1..] == a[1..] + b;
      ForTargetConcat(target, a[1..], b);
    }
  }

  /** All requests submitted by the first `n` steps, and all that these steps began to dispatch, in order. */
  function SubmittedSeq(labels: seq<Label>, n: nat): seq<Request>
    requires n <= |labels|
  {
    if n == 0 then []
    else SubmittedSeq(labels, n - 1) + if labels[n - 1].Submit? then [labels[n - 1].req] else []
  }

  function StartedSeq(states: seq<State>, labels: seq<Label>, n: nat): seq<Request>
    requires |states| == |labels| + 1 && n <= |labels|
  {
    if n == 0 then []
    else
      StartedSeq(states, labels, n - 1)
      + if labels[n - 1].StartDispatch? && states[n - 1].inBuf != [] then [states[n - 1].inBuf[0]] else []
  }

  /** What the relay still has in front of dispatching, in order. */
  function Ahead(target: string, s: State): seq<Request> {
    s.inBuf + (if s.hand.Forwarding? then [s.hand.req] else []) + ForTarget(target, s.external)
  }

  predicate MovesAhead(l: Label) { l.Submit? || l.RelayTake? || l.RelayForward? || l.StartDispatch? }

  lemma AheadFrame(target: string, s: State, l: Label)
    requires Enabled(s, l) && !MovesAhead(l)
    ensures Ahead(target, Apply(target, s, l)) == Ahead(target, s)
  {
  }

  lemma AheadStep(target: string, s: State, l: Label)
    requires Enabled(s, l) && MovesAhead(l)
    ensures var s' := Apply(target, s, l);
      if l.Submit? then Ahead(target, s') == Ahead(target, s) + ForTarget(target, [l.req])
      else if l.StartDispatch? then Ahead(target, s) == [s.inBuf[0]] + Ahead(target, s')
      else Ahead(target, s') == Ahead(target, s)
  {
    if l.Submit? {
      ForTargetConcat(target, s.external, [l.req]);
    } else if l.RelayTake? {
      assert s.external == [s.external[0]] + s.external[1..];
    }
  }

  lemma AheadAt(target: string, states: seq<State>, labels: seq<Label>, m: nat)
    requires IsRun(target, states, labels) && m < |labels|
    ensures var l, before, after := labels[m], Ahead(target, states[m]), Ahead(target, states[m + 1]);
      var started := StartedSeq(states, labels, m + 1);
      if l.Submit? then started == StartedSeq(states, labels, m) && after == before + ForTarget(target, [l.req])
      else started + after == StartedSeq(states, labels, m) + before
  {
    assert StepAt(target, states, labels, m);
    if MovesAhead(labels[m]) {
      AheadStep(target, states[m], labels[m]);
    } else {
      AheadFrame(target, states[m], labels[m]);
    }
  }

  /** Requests for the target begin to be dispatched in the order in which they were submitted. */
  lemma {:induction false} RequestsKeepOrder(target: string, states: seq<State>, labels: seq<Label>, n: nat)
    requires IsRun(target, states, labels) && n < |states|
    ensures ForTarget(target, SubmittedSeq(labels, n)) == StartedSeq(states, labels, n) + Ahead(target, states[n])
  {
    if n > 0 {
      RequestsKeepOrder(target, states, labels, n - 1);
      AheadAt(target, states, labels, n - 1);
      SubmittedNext(target, labels, n - 1);
    } else {
      assert Ahead(target, states[0]) == [];
    }
  }

  lemma SubmittedNext(target: string, labels: seq<Label>, m: nat)
    requires m < |labels|
    ensures ForTarget(target, SubmittedSeq(labels, m + 1)) ==
            ForTarget(target, SubmittedSeq(labels, m)) +
            if labels[m].Submit? then ForTarget(target, [labels[m].req]) else []
  {
    if labels[m].Submit? {
      ForTargetConcat(target, SubmittedSeq(labels, m), [labels[m].req]);
    } else {
      assert SubmittedSeq(labels, m + 1) == SubmittedSeq(labels, m);
    }
  }

  /** The responses that the first `n` steps put into the output buffer, and those they passed on, in order. */
  function RepliedSeq(states: seq<State>, labels: seq<Label>, n: nat): seq<Response>
    requires |states| == |labels| + 1 && n <= |labels|
  {
    if n == 0 then []
    else
      var s, l := states[n - 1], labels[n - 1];
      RepliedSeq(states, labels, n - 1) + if l.Reply? && l.i < |s.replying| then [s.replying[l.i]] else []
  }

  function PassedOnSeq(states: seq<State>, labels: seq<Label>, n: nat): seq<Response>
    requires |states| == |labels| + 1 && n <= |labels|
  {
    if n == 0 then []
    else
      var s, l := states[n - 1], labels[n - 1];
      PassedOnSeq(states, labels, n - 1) + if l.RelayEmit? && s.hand.Returning? then [s.hand.res] else []
  }

  function Behind(s: State): seq<Response> { (if s.hand.Returning? then [s.hand.res] else []) + s.outBuf }

  lemma BehindStep(target: string, s: State, l: Label)
    requires Enabled(s, l)
    ensures var s' := Apply(target, s, l);
      if l.Reply? then Behind(s') == Behind(s) + [s.replying[l.i]]
      else if l.RelayEmit? then Behind(s) == [s.hand.res] + Behind(s') && s'.emitted == s.emitted + [s.hand.res]
      else Behind(s') == Behind(s)
  {
  }

  /** Responses are passed on in the order in which they entered the output buffer. */
  lemma {:induction false} ResponsesKeepOrder(target: string, states: seq<State>, labels: seq<Label>, n: nat)
    requires IsRun(target, states, labels) && n < |states|
    ensures RepliedSeq(states, labels, n) == PassedOnSeq(states, labels, n) + Behind(states[n])
  {
    if n > 0 {
      ResponsesKeepOrder(target, states, labels, n - 1);
      assert StepAt(target, states, labels, n - 1);
      BehindStep(target, states[n - 1], labels[n - 1]);
    } else {
      assert Behind(states[0]) == [];
    }
  }

  // ---- conservation as multisets ---------------------------------------------------------------

  function HandRequests(h: Hand): multiset<Request> {
    match h
    case Empty => multiset{}
    case Forwarding(req) => multiset{req}
    case Returning(res) => multiset{res.source}
  }

  /** The requests that have been taken in and not been answered. */
  function InsideRequests(s: State): multiset<Request> {
    HandRequests(s.hand) + multiset(s.inBuf) + multiset(s.waiting) + multiset(Reqs(s.checking))
    + multiset(Reqs(s.running)) + multiset(Sources(s.replying)) + multiset(Sources(s.outBuf))
  }

  lemma InsideIsMultiplicity(s: State, r: Request)
    ensures InsideRequests(s)[r] == Inside(s, r)
  {
    CountIsMultiplicity(s.inBuf, r);
    CountIsMultiplicity(s.waiting, r);
    CountIsMultiplicity(Reqs(s.checking), r);
    CountIsMultiplicity(Reqs(s.running), r);
    CountIsMultiplicity(Sources(s.replying), r);
    CountIsMultiplicity(Sources(s.outBuf), r);
  }

  /** The requests taken from the external input are, as a multiset, those answered plus those still inside. */
  lemma TakenIsAnsweredPlusInside(target: string, states: seq<State>, labels: seq<Label>, n: nat)
    requires IsRun(target, states, labels) && n < |states|
    ensures multiset(states[n].taken) == multiset(Sources(states[n].emitted)) + InsideRequests(states[n])
  {
    var s := states[n];
    Reachable(target, states, labels, n);
    forall r ensures multiset(s.taken)[r] == (multiset(Sources(s.emitted)) + InsideRequests(s))[r] {
      assert Conserved(s, r);
      CountIsMultiplicity(s.taken, r);
      CountIsMultiplicity(Sources(s.emitted), r);
      InsideIsMultiplicity(s, r);
    }
  }
}
