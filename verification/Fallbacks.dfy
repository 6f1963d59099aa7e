/** Exactly when the recursive search along fallback tokens comes to an end. */
module Fallbacks {
  import opened Grammars
  import opened Compression
  import opened Report

  /** The token reached from `t` by `k` fallbacks; 0 when there is none. */
  function Fallen(fallback: seq<nat>, t: nat, k: nat): nat {
    if k == 0 then t
    else
      var u := Fallen(fallback, t, k - 1);
      if u < |fallback| then fallback[u] else 0
  }

  ghost predicate Falls(fallback: seq<nat>, t: nat, n: nat) {
    exists k: nat :: k <= n && Fallen(fallback, t, k) == 0
  }

  lemma {:induction false} FallenSum(fallback: seq<nat>, t: nat, j: nat, k: nat)
    ensures Fallen(fallback, t, j + k) == Fallen(fallback, Fallen(fallback, t, j), k)
    decreases k
  {
    if k > 0 {
      FallenSum(fallback, t, j, k - 1);
    }
  }

  lemma {:induction false} ChainEndsIff(fallback: seq<nat>, t: nat, n: nat)
    ensures ChainEnds(fallback, t, n) <==> Falls(fallback, t, n + 1)
    decreases n
  {
    assert Fallen(fallback, t, 0) == t;
    var u := Fallen(fallback, t, 1);
    assert u == if t < |fallback| then fallback[t] else 0;
    if t == 0 {
      assert Fallen(fallback, t, 0) == 0;
    } else if u != 0 {
      if n > 0 {
        ChainEndsIff(fallback, u, n - 1);
      }
      if Falls(fallback, t, n + 1) {
        var k: nat :| k <= n + 1 && Fallen(fallback, t, k) == 0;
        FallenSum(fallback, t, 1, k - 1);
        assert Fallen(fallback, u, k - 1) == 0;
      }
      if n > 0 && Falls(fallback, u, n) {
        var k: nat :| k <= n && Fallen(fallback, u, k) == 0;
        FallenSum(fallback, t, 1, k);
        assert Fallen(fallback, t, k + 1) == 0;
      }
    }
  }

  /** No token comes back to itself. */
  ghost predicate NoCycle(fallback: seq<nat>) {
    forall t: nat, k: nat | 0 < t < |fallback| && k > 0 :: Fallen(fallback, t, k) != t
  }

  lemma {:induction false} ZeroStays(fallback: seq<nat>, k: nat)
    requires fallback != [] ==> fallback[0] == 0
    ensures Fallen(fallback, 0, k) == 0
  {
    if k > 0 {
      ZeroStays(fallback, k - 1);
    }
  }

  lemma {:induction false} CycleGoesOn(fallback: seq<nat>, t: nat, k: nat, j: nat)
    requires Fallen(fallback, t, k) == t
    ensures Fallen(fallback, t, j * k) == t
    decreases j
  {
    if j > 0 {
      CycleGoesOn(fallback, t, k, j - 1);
      FallenSum(fallback, t, (j - 1) * k, k);
      assert (j - 1) * k + k == j * k;
    }
  }

  lemma CycleNeverEnds(fallback: seq<nat>, t: nat, k: nat, n: nat)
    requires 0 < t < |fallback| && k > 0 && Fallen(fallback, t, k) == t && fallback[0] == 0
    ensures !Falls(fallback, t, n)
  {
    if Falls(fallback, t, n) {
      var j: nat :| j <= n && Fallen(fallback, t, j) == 0;
      CycleGoesOn(fallback, t, k, j);
      assert j * k >= j;
      FallenSum(fallback, t, j, j * k - j);
      ZeroStays(fallback, j * k - j);
    }
  }

  function Path(fallback: seq<nat>, t: nat, n: nat): (p: seq<nat>)
    ensures |p| == n && forall k: nat | k < n :: p[k] == Fallen(fallback, t, k)
  {
    seq(n, k requires 0 <= k < n => Fallen(fallback, t, k))
  }

  lemma DistinctIsShort(p: seq<nat>, n: nat)
    requires forall k | 0 <= k < |p| :: p[k] < n
    requires forall s: nat, u: nat | s < u < |p| :: p[s] != p[u]
    ensures |p| <= n
  {
    MembersSize(p);
    assert Range(n) == Members(p) + (Range(n) - Members(p));
  }

  /** Among more tokens than there are, two are the same. */
  lemma Repeats(p: seq<nat>, n: nat) returns (i: nat, j: nat)
    requires |p| > n && forall k | 0 <= k < |p| :: p[k] < n
    ensures i < j < |p| && p[i] == p[j]
  {
    if forall s: nat, u: nat | s < u < |p| :: p[s] != p[u] {
      DistinctIsShort(p, n);
    }
    i, j :| i < j < |p| && p[i] == p[j];
  }

  lemma NoCycleEnds(fallback: seq<nat>, t: nat)
    requires NoCycle(fallback) && t < |fallback| && forall u | 0 <= u < |fallback| :: fallback[u] < |fallback|
    ensures Falls(fallback, t, |fallback| + 1)
  {
    var n := |fallback|;
    var p := Path(fallback, t, n + 1);
    forall k: nat | k < n + 1 ensures p[k] < n {
      if k > 0 {
        var u := Fallen(fallback, t, k - 1);
        assert Fallen(fallback, t, k) == if u < n then fallback[u] else 0;
      }
    }
    var i, j := Repeats(p, n);
    FallenSum(fallback, t, i, j - i);
    assert Fallen(fallback, p[i], j - i) == p[i];
    assert Fallen(fallback, t, i) == 0;
  }

  /** The search comes to an end from every token if and only if no token comes back to itself. */
  lemma AcyclicIffNoCycle(g: Grammar)
    requires |g.fallback| == g.nterminal > 0 && g.fallback[0] == 0
    requires forall t | 0 <= t < g.nterminal :: g.fallback[t] < g.nterminal
    ensures FallbackAcyclic(g) <==> NoCycle(g.fallback)
  {
    var n, steps := g.nterminal, g.nterminal + 1;
    forall t: nat | t < n ensures ChainEnds(g.fallback, t, n) <==> Falls(g.fallback, t, steps) {
      ChainEndsIff(g.fallback, t, n);
    }
    if NoCycle(g.fallback) {
      forall t: nat | t < n ensures Falls(g.fallback, t, steps) {
        NoCycleEnds(g.fallback, t);
      }
    } else {
      var t: nat, k: nat :| 0 < t < |g.fallback| && k > 0 && Fallen(g.fallback, t, k) == t;
      CycleNeverEnds(g.fallback, t, k, steps);
    }
  }
}
