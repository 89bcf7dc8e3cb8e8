/** Small value types shared by the other modules. */
module Common {

  datatype Option<+T> = None | Some(value: T)

  /** Reading a map the way a Go map or a lister is read: absence is a value, not an error. */
  function Lookup<K, V>(m: map<K, V>, k: K): Option<V> {
    if k in m then Some(m[k]) else None
  }

  /** Writing `Some(v)` stores the value, writing `None` removes the key. */
  function Store<K, V>(m: map<K, V>, k: K, v: Option<V>): map<K, V> {
    match v
    case Some(x) => m[k := x]
    case None => m - {k}
  }

  function Max(a: int, b: int): int { if a < b then b else a }

  function Min(a: int, b: int): int { if b < a then b else a }

  /** The last separator splits a string in only one way. */
  lemma SplitUnique(a: string, x: string, b: string, y: string, c: char)
    requires a + [c] + x == b + [c] + y && c !in x && c !in y
    ensures a == b && x == y
  {
    var s := a + [c] + x;
    assert s[|a|] == c && s[|b|] == c;
    assert forall k | |a| < k < |s| :: s[k] == x[k - |a| - 1] != c;
    assert forall k | |b| < k < |s| :: s[k] == y[k - |b| - 1] != c;
    assert |a| == |b|;
    assert s[..|a|] == a && s[..|b|] == b && s[|a| + 1..] == x && s[|b| + 1..] == y;
  }

  // ---- since when ------------------------------------------------------------------------------

  /** Step `i` is a cause, and every step after it up to `t` keeps its effect. */
  ghost predicate Since(cause: seq<bool>, keep: seq<bool>, i: nat, t: nat)
    requires t <= |cause| && |cause| == |keep|
  {
    i < t && cause[i] && forall m | i < m < t :: keep[m]
  }

  /**
   A condition that starts out false, that a step brings about exactly if it is a cause, and that lasts
   exactly as long as steps keep it, holds if and only if there was a cause and everything since kept it.
   */
  lemma {:induction false} HoldsIffCaused(holds: seq<bool>, cause: seq<bool>, keep: seq<bool>, t: nat)
    requires |holds| == |cause| + 1 == |keep| + 1 && t < |holds| && !holds[0]
    requires forall i | 0 <= i < |cause| :: holds[i + 1] <==> (holds[i] && keep[i]) || cause[i]
    ensures holds[t] <==> exists i: nat :: Since(cause, keep, i, t)
  {
    if t > 0 {
      var n := t - 1;
      HoldsIffCaused(holds, cause, keep, n);
      assert holds[n + 1] <==> (holds[n] && keep[n]) || cause[n];
      if i: nat :| Since(cause, keep, i, n) && keep[n] {
        assert Since(cause, keep, i, t);
      }
      if cause[n] {
        assert Since(cause, keep, n, t);
      }
      if i: nat :| Since(cause, keep, i, t) {
        assert i < n ==> Since(cause, keep, i, n);
      }
    }
  }
}
