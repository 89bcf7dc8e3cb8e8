/**
 Replay sharding (pkg/replay/worker.go): invocations are dealt round-robin to senders, and each
 request gets an identifier built from target, sender and position.
 */
module Sharding {
  import opened Common
  import opened TraceConversion

  const MaxPerSender: nat := 60000

  /** ceil(n / 60 / 1000), in exact arithmetic. */
  function Senders(n: nat): (senders: nat)
    ensures n <= MaxPerSender * senders && (n > 0 ==> MaxPerSender * (senders - 1) < n)
  {
    (n + MaxPerSender - 1) / MaxPerSender
  }

  /** The place in the trace of entry `j` of bin `b`: `j * n + b`, as repeated addition. */
  function Place(n: nat, j: nat, b: nat): nat { if j == 0 then b else Place(n, j - 1, b) + n }

  lemma {:induction false} PlaceIsProduct(n: nat, j: nat, b: nat)
    ensures Place(n, j, b) == j * n + b
  {
    if j > 0 {
      PlaceIsProduct(n, j - 1, b);
      assert j * n == (j - 1) * n + n;
    }
  }

  lemma {:induction false} PlaceShift(n: nat, j: nat, b: nat)
    ensures Place(n, j, b) == Place(n, j, 0) + b
  {
    if j > 0 { PlaceShift(n, j - 1, b); }
  }

  /** A later round starts at least one round further on. */
  lemma {:induction false} PlaceMonotone(n: nat, j: nat, k: nat)
    requires j < k
    ensures Place(n, j, 0) + n <= Place(n, k, 0)
  {
    if j + 1 < k { PlaceMonotone(n, j, k - 1); }
  }

  /** Round and bin of an index are its quotient and remainder. */
  lemma PlaceUnique(n: nat, q: nat, r: nat, q': nat, r': nat)
    requires Place(n, q, r) == Place(n, q', r') && r < n && r' < n
    ensures q == q' && r == r'
  {
    PlaceShift(n, q, r);
    PlaceShift(n, q', r');
    if q < q' { PlaceMonotone(n, q, q'); } else if q' < q { PlaceMonotone(n, q', q); }
  }

  lemma DivPlace(n: nat, x: nat)
    requires n > 0
    ensures x == Place(n, x / n, x % n) && x % n < n
  {
    PlaceIsProduct(n, x / n, x % n);
  }

  /** The bins after `full` rounds and `extra` further cards: the first `extra` bins hold one more. */
  ghost predicate Dealt<T>(cards: seq<T>, bins: seq<seq<T>>, full: nat, extra: nat) {
    && extra <= |bins| && Place(|bins|, full, extra) == |cards|
    && (forall b | 0 <= b < |bins| :: |bins[b]| == if b < extra then full + 1 else full)
    && (forall b, j | 0 <= b < |bins| && 0 <= j < |bins[b]| :: Place(|bins|, j, b) < |cards|
          && bins[b][j] == cards[Place(|bins|, j, b)])
  }

  lemma DealOne<T>(cards: seq<T>, bins: seq<seq<T>>, full: nat, extra: nat, card: T)
    requires Dealt(cards, bins, full, extra) && extra < |bins|
    ensures Dealt(cards + [card], bins[extra := bins[extra] + [card]], full, extra + 1)
  {
    PlaceShift(|bins|, full, extra);
    PlaceShift(|bins|, full, extra + 1);
  }

  lemma NextRound<T>(cards: seq<T>, bins: seq<seq<T>>, full: nat)
    requires Dealt(cards, bins, full, |bins|)
    ensures Dealt(cards, bins, full + 1, 0)
  {
    PlaceShift(|bins|, full, |bins|);
  }

  /** A trace dealt out to its senders; an empty trace has none. */
  ghost predicate RoundRobin<T>(trace: seq<T>, bins: seq<seq<T>>) {
    && |bins| == Senders(|trace|)
    && (|bins| > 0 ==> Dealt(trace, bins, |trace| / |bins|, |trace| % |bins|))
  }

  method NewWorker<T>(trace: seq<T>) returns (bins: seq<seq<T>>)
    ensures RoundRobin(trace, bins)
  {
    var n := Senders(|trace|);
    bins := seq(n, _ => []);
    ghost var full, extra := 0, 0;
    for i := 0 to |trace|
      invariant |bins| == n && Dealt(trace[..i], bins, full, extra)
      invariant extra < n || trace == []
    {
      DivPlace(n, i);
      PlaceUnique(n, full, extra, i / n, i % n);
      var bin := i % n;
      DealOne(trace[..i], bins, full, extra, trace[i]);
      bins := bins[bin := bins[bin] + [trace[i]]];
      extra := extra + 1;
      assert trace[..i + 1] == trace[..i] + [trace[i]];
      if extra == n {
        NextRound(trace[..i + 1], bins, full);
        full, extra := full + 1, 0;
      }
    }
    assert trace[..|trace|] == trace;
    if n > 0 {
      DivPlace(n, |trace|);
      PlaceUnique(n, full, extra, |trace| / n, |trace| % n);
    }
  }

  /** Entry `j` of bin `b` is invocation `j * n + b`, so every bin keeps the order of the trace. */
  lemma BinEntry<T>(trace: seq<T>, bins: seq<seq<T>>, b: nat, j: nat)
    requires RoundRobin(trace, bins) && b < |bins| && j < |bins[b]|
    ensures j * |bins| + b < |trace| && bins[b][j] == trace[j * |bins| + b]
  {
    PlaceIsProduct(|bins|, j, b);
  }

  /** Sizes differ by at most one, and no sender gets more than 60000 invocations. */
  lemma BinsBalanced<T>(trace: seq<T>, bins: seq<seq<T>>, a: nat, b: nat)
    requires RoundRobin(trace, bins) && a < |bins| && b < |bins|
    ensures |bins[a]| <= |bins[b]| + 1 && |bins[a]| <= 60000
  {
    var n, full, extra := |bins|, |trace| / |bins|, |trace| % |bins|;
    PlaceShift(n, full, extra);
    PlaceIsProduct(n, MaxPerSender, 0);
    PlaceMonotone(n, MaxPerSender, if full > MaxPerSender then full else MaxPerSender + 1);
  }

  /** Re-interleaving the bins restores the trace: entry `i` sits at position `i / n` of bin `i % n`. */
  lemma InterleavingRestores<T>(trace: seq<T>, bins: seq<seq<T>>, i: nat)
    requires RoundRobin(trace, bins) && i < |trace|
    ensures |bins| > 0 && i / |bins| < |bins[i % |bins|]| && bins[i % |bins|][i / |bins|] == trace[i]
  {
    var n, full, extra := |bins|, |trace| / |bins|, |trace| % |bins|;
    DivPlace(n, i);
    PlaceShift(n, i / n, i % n);
    PlaceShift(n, full, extra);
    if full < i / n { PlaceMonotone(n, full, i / n); }
  }

  // ---- request identifiers ---------------------------------------------------------------------

  function Digit(d: nat): char
    requires d < 10
  {
    "0123456789"[d]
  }

  function Decimal(n: nat): string { if n < 10 then [Digit(n)] else Decimal(n / 10) + [Digit(n % 10)] }

  function RequestId(target: string, sender: nat, index: nat): string {
    target + "-" + Decimal(sender) + "/" + Decimal(index)
  }

  // ---- and how to read them back ---------------------------------------------------------------

  function Number(s: string): nat {
    if s == [] then 0
    else
      var c := s[|s| - 1];
      10 * Number(s[..|s| - 1]) + if '0' <= c <= '9' then c as int - '0' as int else 0
  }

  /** Position of the last `c`, or -1. */
  function LastIndex(s: string, c: char): int
    ensures -1 <= LastIndex(s, c) < |s|
  {
    if s == [] then -1 else if s[|s| - 1] == c then |s| - 1 else LastIndex(s[..|s| - 1], c)
  }

  datatype Origin = Origin(target: string, sender: nat, index: nat)

  /** The index follows the last slash, the sender stands between it and the last dash before it. */
  function Parse(id: string): Option<Origin> {
    var slash := LastIndex(id, '/');
    if slash < 0 then None
    else
      var dash := LastIndex(id[..slash], '-');
      if dash < 0 then None else Some(Origin(id[..dash], Number(id[dash + 1..slash]), Number(id[slash + 1..])))
  }

  lemma {:induction false} NumberOfDecimal(n: nat)
    ensures Number(Decimal(n)) == n
  {
    if n >= 10 {
      NumberOfDecimal(n / 10);
      assert Decimal(n)[..|Decimal(n)| - 1] == Decimal(n / 10);
    }
    assert Number([]) == 0;
    assert Decimal(n)[|Decimal(n)| - 1] == Digit(n % 10);
    assert n < 10 ==> Decimal(n)[..0] == [];
  }

  lemma {:induction false} LastIndexOf(a: string, c: char, b: string)
    requires c !in b
    ensures LastIndex(a + [c] + b, c) == |a|
  {
    var s := a + [c] + b;
    if b != [] {
      assert s[..|s| - 1] == a + [c] + b[..|b| - 1];
      LastIndexOf(a, c, b[..|b| - 1]);
    }
  }

  lemma {:induction false} DecimalPlain(n: nat)
    ensures '/' !in Decimal(n) && '-' !in Decimal(n)
  {
    if n >= 10 { DecimalPlain(n / 10); }
  }

  /** Target, sender and index can be read back from an identifier, whatever characters the target contains. */
  lemma RequestIdReadsBack(t: string, s: nat, i: nat)
    ensures Parse(RequestId(t, s, i)) == Some(Origin(t, s, i))
  {
    var id, head := RequestId(t, s, i), t + "-" + Decimal(s);
    DecimalPlain(s);
    DecimalPlain(i);
    NumberOfDecimal(s);
    NumberOfDecimal(i);
    LastIndexOf(head, '/', Decimal(i));
    assert id == head + ['/'] + Decimal(i);
    assert id[..|head|] == head && id[|head| + 1..] == Decimal(i);
    LastIndexOf(t, '-', Decimal(s));
    assert head == t + ['-'] + Decimal(s);
    assert id[..|t|] == t && id[|t| + 1..|head|] == Decimal(s);
  }

  /** No two requests of a replay share an identifier. */
  lemma RequestIdsUnique(t: string, s: nat, i: nat, t': string, s': nat, i': nat)
    requires RequestId(t, s, i) == RequestId(t', s', i')
    ensures t == t' && s == s' && i == i'
  {
    RequestIdReadsBack(t, s, i);
    RequestIdReadsBack(t', s', i');
  }

  datatype ReplayRequest = ReplayRequest(id: string, target: string, durationMilliSec: int)

  /** One sender's loop over its bin. */
  method Send(target: string, sender: nat, bin: seq<Invocation>) returns (sent: seq<ReplayRequest>)
    ensures |sent| == |bin|
    ensures forall j | 0 <= j < |bin| ::
            sent[j] == ReplayRequest(RequestId(target, sender, j), target, bin[j].runtimeMilliSec)
  {
    sent := [];
    for j := 0 to |bin|
      invariant |sent| == j
      invariant forall k | 0 <= k < j ::
              sent[k] == ReplayRequest(RequestId(target, sender, k), target, bin[k].runtimeMilliSec)
    {
      sent := sent + [ReplayRequest(RequestId(target, sender, j), target, bin[j].runtimeMilliSec)];
    }
  }
}
