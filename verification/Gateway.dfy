/**
 One target's path through the gateway, as a transition system: the relay loop
 (pkg/gateway/interface.go), the goroutines of the pod dispatcher and the endpoint
 reconciler (pkg/gateway/dispatcher/pod.go) take turns in any order. Channels are
 unbounded and first-in first-out.
 */
module Gateway {
  import opened Counting

  datatype Status = Success | FailDispatch | FailTimeout | FailConnect | FailSend | FailRecv | InvalidTarget

  datatype Request = Request(id: string, target: string)

  datatype Response = Response(source: Request, status: Status)

  type Endpoint = string

  type Executor = nat

  /** A dispatch goroutine that holds a token of `ep` for `req`. */
  datatype Holding = Holding(req: Request, ep: Endpoint)

  const PodServiceConcurrency: nat := 1

  /** The tokens that a new endpoint puts into circulation. */
  function Copies(ep: Endpoint): seq<Endpoint> { seq(PodServiceConcurrency, _ => ep) }

  /** What the relay goroutine has in its hands between two channel operations. */
  datatype Hand = Empty | Forwarding(req: Request) | Returning(res: Response)

  /** A `Reconcile` call in progress: what it found, what it still has to do, which adds failed. */
  datatype Reconciling = Idle | Busy(
    before: map<Endpoint, Executor>, addsBefore: seq<Endpoint>, desired: set<Endpoint>,
    toAdd: set<Endpoint>, toDel: set<Endpoint>, failed: set<Endpoint>)

  /**
   `taken`, `discarded` and `adds` are histories: requests taken from the external input,
   tokens dropped, and one entry per endpoint added. `pending` are the tokens that the
   adding goroutines have still to push.
   */
  datatype State = State(
    external: seq<Request>, taken: seq<Request>, hand: Hand,
    inBuf: seq<Request>, waiting: seq<Request>, checking: seq<Holding>, running: seq<Holding>,
    replying: seq<Response>, outBuf: seq<Response>, emitted: seq<Response>, concurrency: int,
    endpoints: map<Endpoint, Executor>, tokens: seq<Endpoint>, pending: seq<Endpoint>,
    discarded: seq<Endpoint>, adds: seq<Endpoint>, rec: Reconciling)

  datatype Label =
    | Submit(req: Request)
    | RelayTake | RelayForward | RelayReturn | RelayEmit
    | StartDispatch
    | TakeToken(i: nat) | CheckToken(i: nat) | Timeout(i: nat) | Finish(i: nat, status: Status) | Reply(i: nat)
    | BeginReconcile(desired: set<Endpoint>) | AddOk(ep: Endpoint, executor: Executor) | AddFail(ep: Endpoint)
    | PushToken(i: nat) | Remove(ep: Endpoint) | EndReconcile

  predicate Initial(s: State) {
    s == State([], [], Empty, [], [], [], [], [], [], [], 0, map[], [], [], [], [], Idle)
  }

  predicate Enabled(s: State, l: Label) {
    match l
    case Submit(_) => true
    case RelayTake => s.hand.Empty? && |s.external| > 0
    case RelayForward => s.hand.Forwarding?
    case RelayReturn => s.hand.Empty? && |s.outBuf| > 0
    case RelayEmit => s.hand.Returning?
    case StartDispatch => |s.inBuf| > 0
    case TakeToken(i) => i < |s.waiting| && |s.tokens| > 0
    case CheckToken(i) => i < |s.checking|
    case Timeout(i) => i < |s.waiting|
    case Finish(i, _) => i < |s.running|
    case Reply(i) => i < |s.replying|
    case BeginReconcile(_) => s.rec.Idle?
    case AddOk(ep, _) => s.rec.Busy? && ep in s.rec.toAdd
    case AddFail(ep) => s.rec.Busy? && ep in s.rec.toAdd
    case PushToken(i) => i < |s.pending|
    case Remove(ep) => s.rec.Busy? && ep in s.rec.toDel
    case EndReconcile => s.rec.Busy? && s.rec.toAdd == {} && s.rec.toDel == {} && s.pending == []
  }

  /** A request with the wrong target is answered at once; the others are counted in and passed on. */
  function Relayed(target: string, s: State): State
    requires Enabled(s, RelayTake)
  {
    var req := s.external[0];
    var s1 := s.(external := s.external[1..], taken := s.taken + [req]);
    if req.target != target then s1.(emitted := s1.emitted + [Response(req, InvalidTarget)])
    else s1.(hand := Forwarding(req), concurrency := s1.concurrency + 1)
  }

  /** A token of an endpoint that is gone is dropped, and the request goes on waiting. */
  function Checked(s: State, i: nat): State
    requires i < |s.checking|
  {
    var h := s.checking[i];
    var s1 := s.(checking := Without(s.checking, i));
    if h.ep in s.endpoints then s1.(running := s1.running + [h])
    else s1.(waiting := s1.waiting + [h.req], discarded := s1.discarded + [h.ep])
  }

  function Finished(s: State, i: nat, status: Status): State
    requires i < |s.running|
  {
    var h := s.running[i];
    s.(running := Without(s.running, i), tokens := s.tokens + [h.ep],
       replying := s.replying + [Response(h.req, status)])
  }

  function Apply(target: string, s: State, l: Label): State
    requires Enabled(s, l)
  {
    match l
    case Submit(req) => s.(external := s.external + [req])
    case RelayTake => Relayed(target, s)
    case RelayForward => s.(inBuf := s.inBuf + [s.hand.req], hand := Empty)
    case RelayReturn =>
      s.(outBuf := s.outBuf[1..], hand := Returning(s.outBuf[0]), concurrency := s.concurrency - 1)
    case RelayEmit => s.(emitted := s.emitted + [s.hand.res], hand := Empty)
    case StartDispatch => s.(inBuf := s.inBuf[1..], waiting := s.waiting + [s.inBuf[0]])
    case TakeToken(i) =>
      s.(waiting := Without(s.waiting, i), tokens := s.tokens[1..],
         checking := s.checking + [Holding(s.waiting[i], s.tokens[0])])
    case CheckToken(i) => Checked(s, i)
    case Timeout(i) =>
      s.(waiting := Without(s.waiting, i), replying := s.replying + [Response(s.waiting[i], FailDispatch)])
    case Finish(i, status) => Finished(s, i, status)
    case Reply(i) => s.(replying := Without(s.replying, i), outBuf := s.outBuf + [s.replying[i]])
    case BeginReconcile(desired) =>
      s.(rec := Busy(s.endpoints, s.adds, desired, desired - s.endpoints.Keys, s.endpoints.Keys - desired, {}))
    case AddOk(ep, executor) =>
      s.(endpoints := s.endpoints[ep := executor], pending := s.pending + Copies(ep),
         adds := s.adds + [ep], rec := s.rec.(toAdd := s.rec.toAdd - {ep}))
    case AddFail(ep) => s.(rec := s.rec.(toAdd := s.rec.toAdd - {ep}, failed := s.rec.failed + {ep}))
    case PushToken(i) => s.(pending := Without(s.pending, i), tokens := s.tokens + [s.pending[i]])
    case Remove(ep) => s.(endpoints := s.endpoints - {ep}, rec := s.rec.(toDel := s.rec.toDel - {ep}))
    case EndReconcile => s.(rec := Idle)
  }

  predicate Next(target: string, s: State, l: Label, s': State) { Enabled(s, l) && s' == Apply(target, s, l) }

  predicate StepAt(target: string, states: seq<State>, labels: seq<Label>, i: nat)
    requires |states| == |labels| + 1 && i < |labels|
  {
    Next(target, states[i], labels[i], states[i + 1])
  }

  ghost predicate IsRun(target: string, states: seq<State>, labels: seq<Label>) {
    && |states| == |labels| + 1
    && Initial(states[0])
    && forall i: nat | i < |labels| :: StepAt(target, states, labels, i)
  }
}
