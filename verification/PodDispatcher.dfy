/**
 The pod dispatcher as an object (pkg/gateway/dispatcher/pod.go): its endpoint map and token
 channel are fields that `Reconcile` and the dispatch loop update in place. One call runs at a
 time here; the interleavings are the subject of module Gateway.
 */
module PodDispatching {
  import opened Common
  import opened Counting
  import opened Gateway

  datatype ReadyPod = ReadyPod(name: string, ip: string)

  const WorkloadServicePort := ":80"

  function AddressOf(p: ReadyPod): string { p.ip + WorkloadServicePort }

  /** Both pod name and address: a restarted pod, or a reused address, is a new endpoint. */
  function KeyFor(p: ReadyPod): Endpoint { p.name + "@" + AddressOf(p) }

  /** Name and address, with the workload's port, can be read off a key. */
  lemma KeyReadsBack(p: ReadyPod)
    ensures var n, key := |p.name|, KeyFor(p);
      n < |key| && key[..n] == p.name && key[n] == '@' && key[n + 1..] == p.ip + ":80"
  {
  }

  /** Addresses contain no "@", so two pods share an endpoint key only if both name and address agree. */
  lemma KeyDeterminesPod(p: ReadyPod, q: ReadyPod)
    requires '@' !in p.ip && '@' !in q.ip && KeyFor(p) == KeyFor(q)
    ensures p == q
  {
    SplitUnique(p.name, AddressOf(p), q.name, AddressOf(q), '@');
    assert AddressOf(p)[..|p.ip|] == p.ip && AddressOf(q)[..|q.ip|] == q.ip;
  }

  function Desired(pods: seq<ReadyPod>): set<Endpoint> { set i | 0 <= i < |pods| :: KeyFor(pods[i]) }

  /** A token sequence cut into dropped tokens, the one taken, and the rest. */
  lemma CountTaken(all: seq<Endpoint>, dropped: seq<Endpoint>, key: Option<Endpoint>, rest: seq<Endpoint>, k: Endpoint)
    requires all == dropped + (if key.Some? then [key.value] else []) + rest
    ensures Count(all, k) == Count(dropped, k) + (if key.Some? then One(key.value, k) else 0) + Count(rest, k)
  {
    if key.Some? {
      CountConcat(dropped + [key.value], rest, k);
      CountAppend(dropped, key.value, k);
    } else {
      assert all == dropped + rest;
      CountConcat(dropped, rest, k);
    }
  }

  lemma {:induction false} CountAbsent(keys: seq<Endpoint>, k: Endpoint)
    requires forall i | 0 <= i < |keys| :: keys[i] != k
    ensures Count(keys, k) == 0
  {
    if keys != [] {
      var n := |keys| - 1;
      CountAbsent(keys[..n], k);
      CountAppend(keys[..n], keys[n], k);
      assert keys == keys[..n] + [keys[n]];
    }
  }

  /** The endpoints `keys` have executors numbered from `lo` up to `hi`, each its own. */
  ghost predicate OwnExecutors(endpoints: map<Endpoint, Executor>, keys: set<Endpoint>, lo: Executor, hi: Executor) {
    && lo <= hi
    && (forall k | k in keys :: k in endpoints && lo <= endpoints[k] < hi)
    && (forall j, k | j in keys && k in keys && j != k :: endpoints[j] != endpoints[k])
  }

  lemma OneMore(endpoints: map<Endpoint, Executor>, keys: set<Endpoint>, lo: Executor, hi: Executor, key: Endpoint)
    requires OwnExecutors(endpoints, keys, lo, hi) && key !in keys
    ensures OwnExecutors(endpoints[key := hi], keys + {key}, lo, hi + 1)
  {
  }

  class PodDispatcher {
    var endpoints: map<Endpoint, Executor>
    var tokens: seq<Endpoint>
    var nextExecutor: Executor

    constructor ()
      ensures endpoints == map[] && tokens == []
    {
      endpoints, tokens, nextExecutor := map[], [], 0;
    }

    /** The address of every desired endpoint. */
    method Addresses(pods: seq<ReadyPod>) returns (m: map<Endpoint, string>)
      ensures m.Keys == Desired(pods)
      ensures forall k | k in m :: exists i | 0 <= i < |pods| :: KeyFor(pods[i]) == k && AddressOf(pods[i]) == m[k]
    {
      m := map[];
      for n := 0 to |pods|
        invariant m.Keys == Desired(pods[..n])
        invariant forall k | k in m :: exists i | 0 <= i < n :: KeyFor(pods[i]) == k && AddressOf(pods[i]) == m[k]
      {
        m := m[KeyFor(pods[n]) := AddressOf(pods[n])];
      }
      assert pods[..|pods|] == pods;
    }

    /**
     `startable` are the addresses for which a backend can be created. `failed` are the endpoints
     whose add failed, one error each.
     */
    method Reconcile(pods: seq<ReadyPod>, startable: set<string>) returns (failed: set<Endpoint>)
      modifies this
      ensures failed <= Desired(pods) - old(endpoints).Keys
      ensures OwnExecutors(endpoints, endpoints.Keys - old(endpoints).Keys, old(nextExecutor), nextExecutor)
      ensures endpoints.Keys == Desired(pods) - failed
      ensures forall k | k in Desired(pods) && k in old(endpoints) :: Lookup(endpoints, k) == Some(old(endpoints)[k])
      ensures forall k | k in failed ::
                exists i | 0 <= i < |pods| :: KeyFor(pods[i]) == k && AddressOf(pods[i]) !in startable
      ensures forall k | k in Desired(pods) && k !in old(endpoints) && k !in failed ::
                exists i | 0 <= i < |pods| :: KeyFor(pods[i]) == k && AddressOf(pods[i]) in startable
      ensures forall k :: Count(tokens, k) == Count(old(tokens), k) +
                PodServiceConcurrency * (if k in endpoints && k !in old(endpoints) then 1 else 0)
    {
      var addresses := Addresses(pods);
      var add := addresses.Keys - endpoints.Keys;
      var del := endpoints.Keys - addresses.Keys;
      failed := AddAll(add, addresses, startable);
      RemoveAll(del);
      ghost var added := add - failed;
      assert forall k :: k in added <==> k in endpoints && k !in old(endpoints);
    }

    method AddAll(keys: set<Endpoint>, addresses: map<Endpoint, string>, startable: set<string>)
      returns (failed: set<Endpoint>)
      requires keys <= addresses.Keys && keys !! endpoints.Keys
      modifies this
      ensures failed == set k | k in keys && addresses[k] !in startable
      ensures OwnExecutors(endpoints, keys - failed, old(nextExecutor), nextExecutor)
      ensures endpoints.Keys == old(endpoints).Keys + (keys - failed)
      ensures forall k | k in old(endpoints) :: Lookup(endpoints, k) == Some(old(endpoints)[k])
      ensures forall k :: Count(tokens, k) == Count(old(tokens), k) +
                PodServiceConcurrency * (if k in keys - failed then 1 else 0)
    {
      failed := {};
      var add := keys;
      ghost var done: set<Endpoint> := {};
      while add != {}
        invariant keys == add + done + failed && add !! done && add !! failed && done !! failed
        invariant failed == set k | k in keys - add && addresses[k] !in startable
        invariant OwnExecutors(endpoints, done, old(nextExecutor), nextExecutor)
        invariant endpoints.Keys == old(endpoints).Keys + done
        invariant forall k | k in old(endpoints) :: Lookup(endpoints, k) == Some(old(endpoints)[k])
        invariant forall k :: Count(tokens, k) == Count(old(tokens), k) +
                    PodServiceConcurrency * (if k in done then 1 else 0)
        decreases add
      {
        var key :| key in add;
        add := add - {key};
        if addresses[key] in startable {
          OneMore(endpoints, done, old(nextExecutor), nextExecutor, key);
          Start(key);
          done := done + {key};
        } else {
          failed := failed + {key};
        }
      }
      assert done == keys - failed;
    }

    /** A new endpoint gets an executor of its own, and its tokens. */
    method Start(key: Endpoint)
      modifies this
      ensures endpoints == old(endpoints)[key := old(nextExecutor)] && nextExecutor == old(nextExecutor) + 1
      ensures forall k :: Count(tokens, k) == Count(old(tokens), k) + PodServiceConcurrency * One(key, k)
    {
      endpoints := endpoints[key := nextExecutor];
      nextExecutor := nextExecutor + 1;
      Circulate(key);
    }

    method RemoveAll(keys: set<Endpoint>)
      modifies `endpoints
      ensures endpoints == old(endpoints) - keys
    {
      var del := keys;
      while del != {}
        invariant del <= keys && endpoints == old(endpoints) - (keys - del)
        decreases del
      {
        var key :| key in del;
        del := del - {key};
        endpoints := endpoints - {key};
      }
    }

    /** Pushes the tokens of a new endpoint, one by one. */
    method Circulate(key: Endpoint)
      modifies `tokens
      ensures forall k :: Count(tokens, k) == Count(old(tokens), k) + PodServiceConcurrency * One(key, k)
    {
      for i := 0 to PodServiceConcurrency
        invariant forall k :: Count(tokens, k) == Count(old(tokens), k) + i * One(key, k)
      {
        ghost var before := tokens;
        tokens := tokens + [key];
        forall k ensures Count(tokens, k) == Count(before, k) + One(key, k) {
          CountAppend(before, key, k);
        }
      }
    }

    /**
     The dispatch loop: tokens of endpoints that are gone are dropped until a live one turns up, the
     queue runs dry, or `patience` tokens have been looked at when the deadline passes. `dropped`
     tokens were inspected in vain, each of them stale.
     */
    method Dispatch(patience: nat) returns (key: Option<Endpoint>, dropped: seq<Endpoint>)
      modifies `tokens
      ensures forall i | 0 <= i < |dropped| :: dropped[i] !in endpoints
      ensures old(tokens) == dropped + (if key.Some? then [key.value] else []) + tokens
      ensures key.Some? ==> key.value in endpoints
      ensures key.None? ==> tokens == [] || |dropped| == patience
    {
      dropped := [];
      while |dropped| < patience && tokens != []
        invariant |dropped| <= patience
        invariant forall i | 0 <= i < |dropped| :: dropped[i] !in endpoints
        invariant old(tokens) == dropped + tokens
        decreases |tokens|
      {
        var k := tokens[0];
        tokens := tokens[1..];
        if k in endpoints {
          return Some(k), dropped;
        }
        dropped := dropped + [k];
      }
      key := None;
    }

    /**
     One request from start to end: its response, and what is left of the tokens. Every token comes back
     except those of endpoints that are gone, so a live endpoint is left with as many as before.
     */
    method Serve(req: Request, patience: nat, outcome: Status) returns (res: Response, dropped: seq<Endpoint>)
      modifies `tokens
      ensures res.source == req && (res.status == outcome || res.status == FailDispatch)
      ensures forall k :: Count(tokens, k) + Count(dropped, k) == Count(old(tokens), k)
      ensures forall k | k in endpoints :: Count(tokens, k) == Count(old(tokens), k)
      ensures |dropped| < patience && (exists i | 0 <= i < |old(tokens)| :: old(tokens)[i] in endpoints) ==>
              res.status == outcome
      ensures (forall i | 0 <= i < |old(tokens)| :: old(tokens)[i] !in endpoints) ==> res.status == FailDispatch
    {
      ghost var before := tokens;
      var key;
      key, dropped := Dispatch(patience);
      forall k ensures Count(before, k) ==
        Count(dropped, k) + (if key.Some? then One(key.value, k) else 0) + Count(tokens, k) {
        CountTaken(before, dropped, key, tokens, k);
      }
      forall k | k in endpoints ensures Count(dropped, k) == 0 {
        CountAbsent(dropped, k);
      }
      if key.None? {
        return Response(req, FailDispatch), dropped;
      }
      assert before[|dropped|] == key.value;
      ghost var left := tokens;
      Release(key.value);
      forall k ensures Count(tokens, k) == Count(left, k) + One(key.value, k) {
        CountAppend(left, key.value, k);
      }
      return Response(req, outcome), dropped;
    }

    /** After an execution the token goes back, whether or not its endpoint is still there. */
    method Release(key: Endpoint)
      modifies `tokens
      ensures tokens == old(tokens) + [key]
    {
      tokens := tokens + [key];
    }
  }
}
