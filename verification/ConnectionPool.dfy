/**
 The gRPC backend's shared connection pool (pkg/backend/grpc.go): concurrent executions take a
 copy of a connection, or dial a new one when the pool looks empty, and put the copy back.
 */
module ConnectionPool {
  import opened Common
  import opened Counting

  type Conn = nat

  const GrpcExecutorConcurrency: nat := 50

  function Copies(n: nat, c: Conn): seq<Conn> { seq(n, _ => c) }

  /** An execution inside `newClient`: it has still to push `left` copies of the connection it dialled. */
  datatype Dial = Dial(conn: Conn, left: nat)

  /** `next` connections have been dialled so far; `waiting` executions have pushed theirs and want a copy. */
  datatype State = State(pool: seq<Conn>, held: seq<Conn>, dialing: seq<Dial>, waiting: nat, next: nat)

  datatype Label = Take | StartDial | Push(i: nat) | DialDone(i: nat) | TakeAfterDial | Put(i: nat)

  predicate Enabled(s: State, l: Label) {
    match l
    case Take => s.pool != []
    case StartDial => s.pool == []
    case Push(i) => i < |s.dialing| && s.dialing[i].left > 0
    case DialDone(i) => i < |s.dialing| && s.dialing[i].left == 0
    case TakeAfterDial => s.waiting > 0 && s.pool != []
    case Put(i) => i < |s.held|
  }

  function Apply(s: State, l: Label): State
    requires Enabled(s, l)
  {
    match l
    case Take => s.(pool := s.pool[1..], held := s.held + [s.pool[0]])
    case StartDial => s.(dialing := s.dialing + [Dial(s.next, GrpcExecutorConcurrency)], next := s.next + 1)
    case Push(i) =>
      var d := s.dialing[i];
      s.(pool := s.pool + [d.conn], dialing := s.dialing[i := d.(left := d.left - 1)])
    case DialDone(i) => s.(dialing := Without(s.dialing, i), waiting := s.waiting + 1)
    case TakeAfterDial => s.(waiting := s.waiting - 1, pool := s.pool[1..], held := s.held + [s.pool[0]])
    case Put(i) => s.(held := Without(s.held, i), pool := s.pool + [s.held[i]])
  }

  /** A backend is handed out only after its first connection has been dialled and pushed. */
  predicate Initial(s: State) { s == State(Copies(GrpcExecutorConcurrency, 0), [], [], 0, 1) }

  predicate StepAt(states: seq<State>, labels: seq<Label>, i: nat)
    requires |states| == |labels| + 1 && i < |labels|
  {
    Enabled(states[i], labels[i]) && states[i + 1] == Apply(states[i], labels[i])
  }

  ghost predicate IsRun(states: seq<State>, labels: seq<Label>) {
    && |states| == |labels| + 1
    && Initial(states[0])
    && forall i: nat | i < |labels| :: StepAt(states, labels, i)
  }

  // ---- copies of one connection ----------------------------------------------------------------

  function Left(ds: seq<Dial>, c: Conn): nat {
    if ds == [] then 0 else Left(ds[..|ds| - 1], c) + if ds[|ds| - 1].conn == c then ds[|ds| - 1].left else 0
  }

  function Sum(ds: seq<Dial>): nat { if ds == [] then 0 else Sum(ds[..|ds| - 1]) + ds[|ds| - 1].left }

  lemma {:induction false} LeftUpdate(ds: seq<Dial>, i: nat, d: Dial, c: Conn)
    requires i < |ds| && d.conn == ds[i].conn
    ensures Left(ds[i := d], c) + (if ds[i].conn == c then ds[i].left else 0) ==
            Left(ds, c) + (if d.conn == c then d.left else 0)
    ensures Sum(ds[i := d]) + ds[i].left == Sum(ds) + d.left
  {
    var n := |ds| - 1;
    if i == n {
      assert ds[i := d][..n] == ds[..n];
    } else {
      assert ds[i := d][..n] == ds[..n][i := d];
      LeftUpdate(ds[..n], i, d, c);
    }
  }

  lemma {:induction false} LeftWithout(ds: seq<Dial>, i: nat, c: Conn)
    requires i < |ds|
    ensures Left(ds, c) == Left(Without(ds, i), c) + if ds[i].conn == c then ds[i].left else 0
    ensures Sum(ds) == Sum(Without(ds, i)) + ds[i].left
  {
    var n := |ds| - 1;
    if i == n {
      assert Without(ds, i) == ds[..n];
    } else {
      LeftWithout(ds[..n], i, c);
      assert Without(ds, i) == Without(ds[..n], i) + [ds[n]];
      assert Without(ds, i)[..n - 1] == Without(ds[..n], i);
    }
  }

  lemma {:induction false} SumBounded(ds: seq<Dial>)
    requires forall i | 0 <= i < |ds| :: ds[i].left <= GrpcExecutorConcurrency
    ensures Sum(ds) <= GrpcExecutorConcurrency * |ds|
  {
    if ds != [] { SumBounded(ds[..|ds| - 1]); }
  }

  /** Copies of `c` are in the pool, held, or yet to be pushed: never more than 50 of them. */
  predicate Shared(s: State, c: Conn) {
    Count(s.pool, c) + Count(s.held, c) + Left(s.dialing, c) == if c < s.next then GrpcExecutorConcurrency else 0
  }

  predicate Balanced(s: State) {
    && |s.pool| + |s.held| + Sum(s.dialing) == GrpcExecutorConcurrency * s.next && s.next >= 1
    && (forall i | 0 <= i < |s.dialing| :: s.dialing[i].left <= GrpcExecutorConcurrency)
  }

  lemma SharedMove(s: State, l: Label, c: Conn)
    requires Shared(s, c) && Enabled(s, l) && (l.Take? || l.TakeAfterDial? || l.Put?)
    ensures Shared(Apply(s, l), c)
  {
    if l.Put? {
      CountWithout(s.held, l.i, c);
      CountAppend(s.pool, s.held[l.i], c);
    } else {
      CountTail(s.pool, c);
      CountAppend(s.held, s.pool[0], c);
    }
  }

  lemma SharedPush(s: State, i: nat, c: Conn)
    requires Shared(s, c) && Enabled(s, Push(i))
    ensures Shared(Apply(s, Push(i)), c)
  {
    CountAppend(s.pool, s.dialing[i].conn, c);
    LeftUpdate(s.dialing, i, s.dialing[i].(left := s.dialing[i].left - 1), c);
  }

  lemma SharedStep(s: State, l: Label, c: Conn)
    requires Shared(s, c) && Enabled(s, l)
    ensures Shared(Apply(s, l), c)
  {
    match l
    case StartDial => assert (s.dialing + [Dial(s.next, GrpcExecutorConcurrency)])[..|s.dialing|] == s.dialing;
    case Push(i) => SharedPush(s, i, c);
    case DialDone(i) => LeftWithout(s.dialing, i, c);
    case _ => SharedMove(s, l, c);
  }

  lemma BalancedPush(s: State, i: nat)
    requires Balanced(s) && Enabled(s, Push(i))
    ensures Balanced(Apply(s, Push(i)))
  {
    LeftUpdate(s.dialing, i, s.dialing[i].(left := s.dialing[i].left - 1), 0);
  }

  lemma BalancedStep(s: State, l: Label)
    requires Balanced(s) && Enabled(s, l)
    ensures Balanced(Apply(s, l))
  {
    match l
    case StartDial => assert (s.dialing + [Dial(s.next, GrpcExecutorConcurrency)])[..|s.dialing|] == s.dialing;
    case Push(i) => BalancedPush(s, i);
    case DialDone(i) => LeftWithout(s.dialing, i, 0);
    case Take =>
    case TakeAfterDial =>
    case Put(_) =>
  }

  lemma {:induction false} CountSame(n: nat, x: Conn, c: Conn)
    ensures Count(Copies(n, x), c) == n * One(x, c)
  {
    if n > 0 {
      CountSame(n - 1, x, c);
      assert Copies(n, x) == Copies(n - 1, x) + [x];
      CountAppend(Copies(n - 1, x), x, c);
    }
  }

  lemma {:induction false} Reachable(states: seq<State>, labels: seq<Label>, n: nat)
    requires IsRun(states, labels) && n < |states|
    ensures Balanced(states[n]) && forall c :: Shared(states[n], c)
  {
    if n == 0 {
      forall c ensures Shared(states[0], c) { CountSame(GrpcExecutorConcurrency, 0, c); }
    } else {
      Reachable(states, labels, n - 1);
      assert StepAt(states, labels, n - 1);
      BalancedStep(states[n - 1], labels[n - 1]);
      forall c ensures Shared(states[n], c) { SharedStep(states[n - 1], labels[n - 1], c); }
    }
  }

  /** Once all its tokens are pushed, a connection's pooled and held copies are exactly 50; it never serves more. */
  lemma ConnectionIsNotOvershared(states: seq<State>, labels: seq<Label>, n: nat, c: Conn)
    requires IsRun(states, labels) && n < |states|
    ensures Count(states[n].held, c) <= 50
    ensures c < states[n].next && Left(states[n].dialing, c) == 0 ==>
              Count(states[n].pool, c) + Count(states[n].held, c) == 50
  {
    Reachable(states, labels, n);
    assert Shared(states[n], c);
  }

  // ---- how many connections there can be -------------------------------------------------------

  function InFlight(s: State): nat { |s.held| + |s.dialing| + s.waiting }

  /** A connection is dialled only when every connection that finished dialling is used up to its last copy. */
  lemma DialOnlyWhenSaturated(states: seq<State>, labels: seq<Label>, n: nat)
    requires IsRun(states, labels) && n < |labels| && labels[n].StartDial?
    ensures forall c: Conn | c < states[n].next && Left(states[n].dialing, c) == 0 ::
              Count(states[n].held, c) == GrpcExecutorConcurrency
    ensures GrpcExecutorConcurrency * (states[n].next - |states[n].dialing|) <= |states[n].held|
  {
    Reachable(states, labels, n);
    assert StepAt(states, labels, n);
    SumBounded(states[n].dialing);
    forall c: Conn | c < states[n].next && Left(states[n].dialing, c) == 0
      ensures Count(states[n].held, c) == GrpcExecutorConcurrency
    {
      assert Shared(states[n], c);
    }
  }

  /** There are never more connections than executions that were ever in flight together. */
  lemma {:induction false} ConnectionsBoundedByPeak(states: seq<State>, labels: seq<Label>, n: nat, peak: nat)
    requires IsRun(states, labels) && n < |states| && peak >= 1
    requires forall i | 0 <= i <= n :: InFlight(states[i]) <= peak
    ensures states[n].next <= peak
  {
    if n > 0 {
      ConnectionsBoundedByPeak(states, labels, n - 1, peak);
      assert StepAt(states, labels, n - 1);
      if labels[n - 1].StartDial? {
        DialOnlyWhenSaturated(states, labels, n - 1);
        assert InFlight(states[n]) == InFlight(states[n - 1]) + 1;
      }
    }
  }

  // ---- order -----------------------------------------------------------------------------------

  /** The copies that entered the pool by the first `n` steps, and those that were taken from it, in order. */
  function EnteredSeq(states: seq<State>, labels: seq<Label>, n: nat): seq<Conn>
    requires |states| == |labels| + 1 && n <= |labels|
  {
    if n == 0 then states[0].pool
    else
      var s, l := states[n - 1], labels[n - 1];
      EnteredSeq(states, labels, n - 1) +
      if l.Push? && l.i < |s.dialing| then [s.dialing[l.i].conn]
      else if l.Put? && l.i < |s.held| then [s.held[l.i]]
      else []
  }

  function TakenSeq(states: seq<State>, labels: seq<Label>, n: nat): seq<Conn>
    requires |states| == |labels| + 1 && n <= |labels|
  {
    if n == 0 then []
    else
      var s', l := states[n], labels[n - 1];
      TakenSeq(states, labels, n - 1) +
      if (l.Take? || l.TakeAfterDial?) && s'.held != [] then [s'.held[|s'.held| - 1]] else []
  }

  /** Copies are handed out in the order in which they entered the pool, so connections are used in turn. */
  lemma {:induction false} CopiesKeepOrder(states: seq<State>, labels: seq<Label>, n: nat)
    requires IsRun(states, labels) && n < |states|
    ensures EnteredSeq(states, labels, n) == TakenSeq(states, labels, n) + states[n].pool
  {
    if n > 0 {
      CopiesKeepOrder(states, labels, n - 1);
      assert StepAt(states, labels, n - 1);
    }
  }

  // ---- nobody waits in vain --------------------------------------------------------------------

  lemma {:induction false} SomeLeft(ds: seq<Dial>) returns (i: nat)
    requires Sum(ds) > 0
    ensures i < |ds| && ds[i].left > 0
  {
    var n := |ds| - 1;
    if ds[n].left > 0 {
      i := n;
    } else {
      i := SomeLeft(ds[..n]);
    }
  }

  /**
   An execution that waits for a copy after its dial never deadlocks: a copy is in the pool, or held and
   to be put back, or another dial has copies still to push.
   */
  lemma WaiterIsNeverStuck(states: seq<State>, labels: seq<Label>, n: nat) returns (l: Label)
    requires IsRun(states, labels) && n < |states| && states[n].waiting > 0
    ensures Enabled(states[n], l) && (l.TakeAfterDial? || l.Put? || l.Push?)
    ensures states[n].pool == [] ==> |states[n].held| + Sum(states[n].dialing) >= GrpcExecutorConcurrency
  {
    Reachable(states, labels, n);
    var s := states[n];
    if s.pool != [] {
      l := TakeAfterDial;
    } else if s.held != [] {
      l := Put(0);
    } else {
      var i := SomeLeft(s.dialing);
      l := Push(i);
    }
  }

  // ---- the backend object ----------------------------------------------------------------------

  class GrpcBackend {
    var connectionPool: seq<Conn>
    var dialled: nat

    constructor ()
      ensures connectionPool == [] && dialled == 0
    {
      connectionPool, dialled := [], 0;
    }

    /** A backend is handed out with its first connection in the pool, or not at all. */
    static method NewGrpcBackend(fails: bool) returns (backend: Option<GrpcBackend>)
      ensures backend.None? <==> fails
      ensures backend.Some? ==> backend.value.connectionPool == Copies(GrpcExecutorConcurrency, 0)
      ensures backend.Some? ==> fresh(backend.value) && backend.value.dialled == 1
    {
      var g := new GrpcBackend();
      var ok := g.NewClient(fails);
      backend := if ok then Some(g) else None;
    }

    /** Dials unless `fails`, and fills the pool with copies of the new connection. */
    method NewClient(fails: bool) returns (ok: bool)
      modifies this
      ensures ok == !fails
      ensures ok ==> connectionPool == old(connectionPool) + Copies(GrpcExecutorConcurrency, old(dialled))
      ensures ok ==> dialled == old(dialled) + 1
      ensures !ok ==> connectionPool == old(connectionPool) && dialled == old(dialled)
    {
      if fails {
        return false;
      }
      var conn := dialled;
      dialled := dialled + 1;
      for i := 0 to GrpcExecutorConcurrency
        invariant connectionPool == old(connectionPool) + Copies(i, conn)
        invariant dialled == old(dialled) + 1
      {
        connectionPool := connectionPool + [conn];
      }
      return true;
    }

    /** A pooled copy if there is one, else a copy of a newly dialled connection. */
    method GetOrCreateClient(fails: bool) returns (conn: Option<Conn>)
      modifies this
      ensures conn.None? <==> old(connectionPool) == [] && fails
      ensures conn.None? ==> connectionPool == old(connectionPool) && dialled == old(dialled)
      ensures old(connectionPool) != [] ==>
              [conn.value] + connectionPool == old(connectionPool) && dialled == old(dialled)
      ensures old(connectionPool) == [] && !fails ==>
                conn.value == old(dialled)
                  && [conn.value] + connectionPool == Copies(GrpcExecutorConcurrency, old(dialled))
    {
      if connectionPool == [] {
        var ok := NewClient(fails);
        if !ok {
          return None;
        }
      }
      conn := Some(connectionPool[0]);
      connectionPool := connectionPool[1..];
    }
  }
}
