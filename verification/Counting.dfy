/** Occurrences in a sequence, for conservation proofs over queues and goroutine lists. */
module Counting {

  function Without<T>(s: seq<T>, i: nat): seq<T>
    requires i < |s|
  {
    s[..i] + s[i + 1..]
  }

  /** How often `x` occurs in `s`. */
  function Count<T(==)>(s: seq<T>, x: T): nat {
    if s == [] then 0 else Count(s[..|s| - 1], x) + if s[|s| - 1] == x then 1 else 0
  }

  function One<T(==)>(y: T, x: T): nat { if y == x then 1 else 0 }

  lemma CountAppend<T>(s: seq<T>, y: T, x: T)
    ensures Count(s + [y], x) == Count(s, x) + One(y, x)
  {
    assert (s + [y])[..|s|] == s;
  }

  lemma {:induction false} CountIsMultiplicity<T>(s: seq<T>, x: T)
    ensures Count(s, x) == multiset(s)[x]
  {
    if s != [] {
      CountIsMultiplicity(s[..|s| - 1], x);
      assert s == s[..|s| - 1] + [s[|s| - 1]];
    }
  }

  lemma {:induction false} CountConcat<T>(s: seq<T>, t: seq<T>, x: T)
    ensures Count(s + t, x) == Count(s, x) + Count(t, x)
  {
    if t == [] {
      assert s + t == s;
    } else {
      CountConcat(s, t[..|t| - 1], x);
      assert (s + t)[..|s + t| - 1] == s + t[..|t| - 1];
    }
  }

  lemma {:induction false} CountWithout<T>(s: seq<T>, i: nat, x: T)
    requires i < |s|
    ensures Count(s, x) == Count(Without(s, i), x) + One(s[i], x)
  {
    var n := |s| - 1;
    if i == n {
      assert Without(s, i) == s[..n];
    } else {
      CountWithout(s[..n], i, x);
      assert Without(s, i) == Without(s[..n], i) + [s[n]];
      CountAppend(Without(s[..n], i), s[n], x);
    }
  }

  lemma CountTail<T>(s: seq<T>, x: T)
    requires |s| > 0
    ensures Count(s, x) == Count(s[1..], x) + One(s[0], x)
  {
    CountWithout(s, 0, x);
    assert Without(s, 0) == s[1..];
  }

  // ---- in and out ------------------------------------------------------------------------------

  /** How many of the first `n` flags are set. */
  function Trues(flags: seq<bool>, n: nat): nat
    requires n <= |flags|
  {
    if n == 0 then 0 else Trues(flags, n - 1) + if flags[n - 1] then 1 else 0
  }

  /** What is there is what came in and has not gone out. */
  lemma {:induction false} InMinusOut(held: seq<nat>, ins: seq<bool>, outs: seq<bool>, n: nat)
    requires |held| == |ins| + 1 == |outs| + 1 && n < |held| && held[0] == 0
    requires forall i | 0 <= i < |ins| ::
               held[i + 1] + (if outs[i] then 1 else 0) == held[i] + (if ins[i] then 1 else 0)
    ensures held[n] + Trues(outs, n) == Trues(ins, n)
  {
    if n > 0 {
      InMinusOut(held, ins, outs, n - 1);
      assert held[n - 1 + 1] + (if outs[n - 1] then 1 else 0) == held[n - 1] + (if ins[n - 1] then 1 else 0);
    }
  }
}
