/** The generic list sort: a bottom-up merge sort that keeps sorted runs in an array of
    bins, bin `i` being either empty or a run of exactly 2^i elements.  */
module MergeSort {

  const LISTSIZE := 30

  function Pow2(n: nat): (p: nat)
    ensures p > 0
  {
    if n == 0 then 1 else 2 * Pow2(n - 1)
  }

  lemma ThirtyBits()
    ensures Pow2(LISTSIZE) == 0x4000_0000
  {
    assert Pow2(10) == 1024;
    assert Pow2(15) == 32768;
    assert Pow2(20) == 1048576;
    assert Pow2(25) == 33554432;
  }

  ghost predicate AtMost<T>(cmp: (T, T) -> int, a: T, b: T) {
    !(cmp(b, a) < 0)
  }

  /** What a comparison function must be for sorting to mean anything. */
  ghost predicate TotalPreorder<T(!new)>(cmp: (T, T) -> int) {
    && (forall a, b :: AtMost(cmp, a, b) || AtMost(cmp, b, a))
    && (forall a, b, c :: AtMost(cmp, a, b) && AtMost(cmp, b, c) ==> AtMost(cmp, a, c))
  }

  lemma Transitive<T(!new)>(cmp: (T, T) -> int, a: T, b: T, c: T)
    requires TotalPreorder(cmp)
    ensures !(cmp(b, a) < 0) && !(cmp(c, b) < 0) ==> !(cmp(c, a) < 0)
    ensures cmp(a, b) < 0 ==> !(cmp(b, a) < 0)
  {
    assert AtMost(cmp, a, b) || AtMost(cmp, b, a);
    assert AtMost(cmp, a, b) && AtMost(cmp, b, c) ==> AtMost(cmp, a, c);
  }

  ghost predicate Sorted<T>(cmp: (T, T) -> int, s: seq<T>) {
    forall i, j :: 0 <= i < j < |s| ==> !(cmp(s[j], s[i]) < 0)
  }

  predicate Tied<T>(cmp: (T, T) -> int, x: T, y: T) {
    !(cmp(x, y) < 0) && !(cmp(y, x) < 0)
  }

  /** The elements of `s` that tie with `x`, in their order. */
  function Ties<T>(cmp: (T, T) -> int, x: T, s: seq<T>): seq<T> {
    if s == [] then []
    else (if Tied(cmp, x, s[0]) then [s[0]] else []) + Ties(cmp, x, s[1..])
  }

  /** `out` is `s` sorted, with ties left in their original order. */
  ghost predicate StableSortOf<T(!new)>(cmp: (T, T) -> int, out: seq<T>, s: seq<T>) {
    && Sorted(cmp, out)
    && multiset(out) == multiset(s)
    && forall x :: Ties(cmp, x, out) == Ties(cmp, x, s)
  }

  // ----- The functions the loops are proved against -----

  function Merge<T>(cmp: (T, T) -> int, a: seq<T>, b: seq<T>): seq<T>
    decreases |a| + |b|
  {
    if a == [] then b
    else if b == [] then a
    else if cmp(a[0], b[0]) < 0 then [a[0]] + Merge(cmp, a[1..], b)
    else [b[0]] + Merge(cmp, a, b[1..])
  }

  function Sort<T>(cmp: (T, T) -> int, s: seq<T>): seq<T> {
    if s == [] then [] else Merge(cmp, [s[|s| - 1]], Sort(cmp, s[..|s| - 1]))
  }

  function FoldFrom<T>(cmp: (T, T) -> int, ep: seq<T>, bins: seq<seq<T>>, i: nat): seq<T>
    requires i <= |bins|
    decreases |bins| - i
  {
    if i == |bins| then ep else FoldFrom(cmp, Merge(cmp, ep, bins[i]), bins, i + 1)
  }

  lemma {:induction false} MergeAssociative<T(!new)>(cmp: (T, T) -> int, a: seq<T>, b: seq<T>, c: seq<T>)
    requires TotalPreorder(cmp)
    ensures Merge(cmp, Merge(cmp, a, b), c) == Merge(cmp, a, Merge(cmp, b, c))
    decreases |a| + |b| + |c|
  {
    if a != [] && b != [] && c != [] {
      var ab, bc := Merge(cmp, a, b), Merge(cmp, b, c);
      Transitive(cmp, a[0], b[0], c[0]);
      Transitive(cmp, c[0], b[0], a[0]);
      Transitive(cmp, c[0], a[0], b[0]);
      Transitive(cmp, b[0], c[0], a[0]);
      if cmp(b[0], c[0]) < 0 {
        assert bc == [b[0]] + Merge(cmp, b[1..], c);
        if cmp(a[0], b[0]) < 0 {
          assert ab[1..] == Merge(cmp, a[1..], b);
          MergeAssociative(cmp, a[1..], b, c);
        } else {
          assert ab[1..] == Merge(cmp, a, b[1..]);
          assert bc[1..] == Merge(cmp, b[1..], c);
          MergeAssociative(cmp, a, b[1..], c);
        }
      } else {
        assert bc[1..] == Merge(cmp, b, c[1..]);
        if cmp(a[0], c[0]) < 0 {
          assert cmp(a[0], b[0]) < 0;
          assert ab[1..] == Merge(cmp, a[1..], b);
          MergeAssociative(cmp, a[1..], b, c);
        } else {
          assert ab[0] == a[0] || ab[0] == b[0];
          MergeAssociative(cmp, a, b, c[1..]);
        }
      }
    }
  }

  lemma {:induction false} FoldPullsOut<T(!new)>(cmp: (T, T) -> int, x: seq<T>, y: seq<T>, bins: seq<seq<T>>, i: nat)
    requires TotalPreorder(cmp) && i <= |bins|
    ensures FoldFrom(cmp, Merge(cmp, x, y), bins, i) == Merge(cmp, x, FoldFrom(cmp, y, bins, i))
    decreases |bins| - i
  {
    if i < |bins| {
      MergeAssociative(cmp, x, y, bins[i]);
      FoldPullsOut(cmp, x, Merge(cmp, y, bins[i]), bins, i + 1);
    }
  }

  lemma {:induction false} FoldSkipsEmpty<T>(cmp: (T, T) -> int, ep: seq<T>, bins: seq<seq<T>>, i: nat, j: nat)
    requires i <= j <= |bins|
    requires forall k | i <= k < j :: bins[k] == []
    ensures FoldFrom(cmp, ep, bins, i) == FoldFrom(cmp, ep, bins, j)
    decreases j - i
  {
    if i < j {
      FoldSkipsEmpty(cmp, ep, bins, i + 1, j);
    }
  }

  lemma {:induction false} FoldDependsOnTail<T>(
    cmp: (T, T) -> int, ep: seq<T>, b1: seq<seq<T>>, b2: seq<seq<T>>, i: nat)
    requires i <= |b1| == |b2|
    requires forall k | i <= k < |b1| :: b1[k] == b2[k]
    ensures FoldFrom(cmp, ep, b1, i) == FoldFrom(cmp, ep, b2, i)
    decreases |b1| - i
  {
    if i < |b1| {
      FoldDependsOnTail(cmp, Merge(cmp, ep, b1[i]), b1, b2, i + 1);
    }
  }

  // ----- Sizes: the binary counter -----

  ghost predicate Counter<T>(bins: seq<seq<T>>) {
    forall i | 0 <= i < |bins| :: bins[i] == [] || |bins[i]| == Pow2(i)
  }

  ghost function Held<T>(bins: seq<seq<T>>): nat {
    if bins == [] then 0 else Held(bins[..|bins| - 1]) + |bins[|bins| - 1]|
  }

  lemma {:induction false} HeldBound<T>(bins: seq<seq<T>>)
    requires Counter(bins)
    ensures Held(bins) < Pow2(|bins|)
  {
    if bins != [] {
      HeldBound(bins[..|bins| - 1]);
    }
  }

  lemma {:induction false} HeldUpdate<T>(bins: seq<seq<T>>, i: nat, b: seq<T>)
    requires i < |bins|
    ensures Held(bins[i := b]) == Held(bins) - |bins[i]| + |b|
    decreases |bins|
  {
    var n := |bins| - 1;
    if i < n {
      HeldUpdate(bins[..n], i, b);
      assert bins[i := b][..n] == bins[..n][i := b];
    } else {
      assert bins[i := b][..n] == bins[..n];
    }
  }

  lemma {:induction false} HeldOfEmpty<T>(bins: seq<seq<T>>)
    requires forall i | 0 <= i < |bins| :: bins[i] == []
    ensures Held(bins) == 0 && Counter(bins)
  {
    if bins != [] {
      HeldOfEmpty(bins[..|bins| - 1]);
    }
  }

  lemma {:induction false} MergeLength<T>(cmp: (T, T) -> int, a: seq<T>, b: seq<T>)
    ensures |Merge(cmp, a, b)| == |a| + |b|
    decreases |a| + |b|
  {
    if a != [] && b != [] {
      if cmp(a[0], b[0]) < 0 { MergeLength(cmp, a[1..], b); } else { MergeLength(cmp, a, b[1..]); }
    }
  }

  /** The size of the fold over the bins from bin `i` on, given the bins before `i` hold the rest. */
  lemma {:induction false} FoldLength<T>(cmp: (T, T) -> int, ep: seq<T>, bins: seq<seq<T>>, i: nat)
    requires i <= |bins| && |ep| == Held(bins[..i])
    ensures |FoldFrom(cmp, ep, bins, i)| == Held(bins)
    decreases |bins| - i
  {
    if i < |bins| {
      MergeLength(cmp, ep, bins[i]);
      assert bins[..i + 1][..i] == bins[..i];
      FoldLength(cmp, Merge(cmp, ep, bins[i]), bins, i + 1);
    } else {
      assert bins[..i] == bins;
    }
  }

  // ----- The algorithm -----

  method MergeLists<T>(cmp: (T, T) -> int, a0: seq<T>, b0: seq<T>) returns (head: seq<T>)
    ensures head == Merge(cmp, a0, b0)
  {
    var a, b := a0, b0;
    head := [];
    while a != [] && b != []
      invariant head + Merge(cmp, a, b) == Merge(cmp, a0, b0)
      decreases |a| + |b|
    {
      if cmp(a[0], b[0]) < 0 {
        head, a := head + [a[0]], a[1..];
      } else {
        head, b := head + [b[0]], b[1..];
      }
    }
    head := head + if a != [] then a else b;
  }

  /** One carry: bin `i` is merged into the run in hand and emptied. */
  lemma CarryStep<T>(cmp: (T, T) -> int, ep: seq<T>, bins: seq<seq<T>>, i: nat)
    requires i < |bins| && |ep| == Pow2(i) && bins[i] != [] && Counter(bins)
    ensures Counter(bins[i := []])
    ensures |Merge(cmp, ep, bins[i])| == Pow2(i + 1)
    ensures Held(bins[i := []]) == Held(bins) - Pow2(i)
    ensures FoldFrom(cmp, Merge(cmp, ep, bins[i]), bins[i := []], i + 1) == FoldFrom(cmp, ep, bins, i)
  {
    MergeLength(cmp, ep, bins[i]);
    HeldUpdate(bins, i, []);
    FoldDependsOnTail(cmp, Merge(cmp, ep, bins[i]), bins, bins[i := []], i + 1);
  }

  /** The end of a carry: the run in hand goes into bin `i`, which is empty. */
  lemma CarryEnd<T>(cmp: (T, T) -> int, ep: seq<T>, bins: seq<seq<T>>, i: nat)
    requires i < |bins| && bins[i] == []
    requires forall k | 0 <= k < i :: bins[k] == []
    ensures Held(bins[i := ep]) == Held(bins) + |ep|
    ensures Counter(bins) && |ep| == Pow2(i) ==> Counter(bins[i := ep])
    ensures FoldFrom(cmp, [], bins[i := ep], 0) == FoldFrom(cmp, ep, bins, i)
  {
    HeldUpdate(bins, i, ep);
    FoldSkipsEmpty(cmp, [], bins[i := ep], 0, i);
    FoldDependsOnTail(cmp, ep, bins, bins[i := ep], i + 1);
  }

  /** A run meets a used last bin only when 2^n elements are in play. */
  lemma CarryOverflows<T>(ep: seq<T>, bins: seq<seq<T>>, i: nat)
    requires |bins| == i + 1 && bins[i] != [] && Counter(bins) && |ep| == Pow2(i)
    requires forall k | 0 <= k < i :: bins[k] == []
    ensures |ep| + Held(bins) == Pow2(i + 1)
    ensures Counter(bins[i := ep])
  {
    HeldOfEmpty(bins[..i]);
  }

  /** Put one element into the bins, carrying full bins upward. */
  method Carry<T(!new)>(cmp: (T, T) -> int, e: T, bins: array<seq<T>>)
    requires TotalPreorder(cmp)
    requires bins.Length == LISTSIZE && Counter(bins[..])
    modifies bins
    ensures Counter(bins[..])
    ensures Held(old(bins[..])) + 1 < Pow2(LISTSIZE) ==>
              && Held(bins[..]) == Held(old(bins[..])) + 1
              && FoldFrom(cmp, [], bins[..], 0) == Merge(cmp, [e], FoldFrom(cmp, [], old(bins[..]), 0))
  {
    hide Held, FoldFrom;
    ghost var before := bins[..];
    ghost var now := before;
    var ep, i := [e], 0;
    FoldPullsOut(cmp, [e], [], before, 0);
    while i < LISTSIZE - 1 && bins[i] != []
      invariant 0 <= i <= LISTSIZE - 1
      invariant now == bins[..] && Counter(now)
      invariant |ep| == Pow2(i)
      invariant forall k | 0 <= k < i :: now[k] == []
      invariant |ep| + Held(now) == Held(before) + 1
      invariant FoldFrom(cmp, ep, now, i) == FoldFrom(cmp, [e], before, 0)
    {
      CarryStep(cmp, ep, now, i);
      ep := MergeLists(cmp, ep, bins[i]);
      bins[i] := [];
      now := now[i := []];
      i := i + 1;
    }
    if bins[i] == [] {
      CarryEnd(cmp, ep, now, i);
    } else {
      CarryOverflows(ep, now, i);
    }
    bins[i] := ep;
    assert bins[..] == now[i := ep];
  }

  /** The last pass: all the runs, the youngest first. */
  method MergeBins<T>(cmp: (T, T) -> int, bins: array<seq<T>>) returns (ep: seq<T>)
    ensures ep == FoldFrom(cmp, [], bins[..], 0)
  {
    ep := [];
    for i := 0 to bins.Length
      invariant FoldFrom(cmp, ep, bins[..], i) == FoldFrom(cmp, [], bins[..], 0)
    {
      if bins[i] != [] {
        ep := MergeLists(cmp, ep, bins[i]);
      }
    }
  }

  /** The result is the stable sort for every list of fewer than 2^30 elements, and the
      last bin is overwritten, losing elements, for every longer one. */
  method MSort<T(!new)>(cmp: (T, T) -> int, list: seq<T>) returns (ep: seq<T>)
    requires TotalPreorder(cmp)
    ensures |list| < 0x4000_0000 ==> ep == Sort(cmp, list)
    ensures |list| >= 0x4000_0000 ==> |ep| < |list|
  {
    hide Pow2, Held, Counter;
    ThirtyBits();
    var bins := new seq<T>[LISTSIZE](_ => []);
    HeldOfEmpty(bins[..]);
    FoldSkipsEmpty(cmp, [], bins[..], 0, LISTSIZE);
    var n := 0;
    while n < |list|
      invariant 0 <= n <= |list|
      invariant Counter(bins[..])
      invariant n < 0x4000_0000 ==> Held(bins[..]) == n && FoldFrom(cmp, [], bins[..], 0) == Sort(cmp, list[..n])
    {
      Carry(cmp, list[n], bins);
      assert list[..n + 1][..n] == list[..n];
      n := n + 1;
    }
    assert list[..n] == list;
    ep := MergeBins(cmp, bins);
    HeldOfEmpty(bins[..][..0]);
    FoldLength(cmp, [], bins[..], 0);
    HeldBound(bins[..]);
  }

  // ----- What the specification function means -----

  lemma {:induction false} MergeKeeps<T>(cmp: (T, T) -> int, a: seq<T>, b: seq<T>)
    ensures multiset(Merge(cmp, a, b)) == multiset(a) + multiset(b)
    decreases |a| + |b|
  {
    if a != [] && b != [] {
      assert a == [a[0]] + a[1..];
      assert b == [b[0]] + b[1..];
      if cmp(a[0], b[0]) < 0 { MergeKeeps(cmp, a[1..], b); } else { MergeKeeps(cmp, a, b[1..]); }
    } else {
      assert a + b == Merge(cmp, a, b);
    }
  }

  lemma {:induction false} MergeNotBelow<T>(cmp: (T, T) -> int, h: T, a: seq<T>, b: seq<T>)
    requires forall i | 0 <= i < |a| :: !(cmp(a[i], h) < 0)
    requires forall i | 0 <= i < |b| :: !(cmp(b[i], h) < 0)
    ensures forall i | 0 <= i < |Merge(cmp, a, b)| :: !(cmp(Merge(cmp, a, b)[i], h) < 0)
    decreases |a| + |b|
  {
    if a != [] && b != [] {
      if cmp(a[0], b[0]) < 0 { MergeNotBelow(cmp, h, a[1..], b); } else { MergeNotBelow(cmp, h, a, b[1..]); }
    }
  }

  lemma HeadBelowAll<T(!new)>(cmp: (T, T) -> int, h: T, a: seq<T>)
    requires TotalPreorder(cmp) && Sorted(cmp, a)
    requires a != [] ==> !(cmp(a[0], h) < 0)
    ensures forall i | 0 <= i < |a| :: !(cmp(a[i], h) < 0)
  {
    forall i | 0 <= i < |a| ensures !(cmp(a[i], h) < 0) {
      if i > 0 { Transitive(cmp, h, a[0], a[i]); }
    }
  }

  lemma SortedCons<T>(cmp: (T, T) -> int, h: T, m: seq<T>)
    requires Sorted(cmp, m)
    requires forall i | 0 <= i < |m| :: !(cmp(m[i], h) < 0)
    ensures Sorted(cmp, [h] + m)
  {
  }

  lemma SortedTail<T>(cmp: (T, T) -> int, a: seq<T>)
    requires Sorted(cmp, a) && a != []
    ensures Sorted(cmp, a[1..])
  {
  }

  lemma {:induction false} MergeSorted<T(!new)>(cmp: (T, T) -> int, a: seq<T>, b: seq<T>)
    requires TotalPreorder(cmp) && Sorted(cmp, a) && Sorted(cmp, b)
    ensures Sorted(cmp, Merge(cmp, a, b))
    decreases |a| + |b|
  {
    if a != [] && b != [] {
      var fromA := cmp(a[0], b[0]) < 0;
      var x, y, h := if fromA then a[1..] else a, if fromA then b else b[1..], if fromA then a[0] else b[0];
      SortedTail(cmp, a);
      SortedTail(cmp, b);
      MergeSorted(cmp, x, y);
      Transitive(cmp, a[0], b[0], b[0]);
      Transitive(cmp, a[0], a[0], a[0]);
      Transitive(cmp, b[0], b[0], b[0]);
      HeadBelowAll(cmp, h, a);
      HeadBelowAll(cmp, h, b);
      MergeNotBelow(cmp, h, x, y);
      SortedCons(cmp, h, Merge(cmp, x, y));
    }
  }

  lemma {:induction false} TiesConcat<T>(cmp: (T, T) -> int, x: T, a: seq<T>, b: seq<T>)
    ensures Ties(cmp, x, a + b) == Ties(cmp, x, a) + Ties(cmp, x, b)
  {
    hide Tied;
    if a == [] {
      assert a + b == b;
    } else {
      TiesConcat(cmp, x, a[1..], b);
      assert (a + b)[0] == a[0] && (a + b)[1..] == a[1..] + b;
    }
  }

  lemma {:induction false} NoTiesAbove<T(!new)>(cmp: (T, T) -> int, x: T, s: seq<T>)
    requires TotalPreorder(cmp)
    requires forall i | 0 <= i < |s| :: cmp(x, s[i]) < 0
    ensures Ties(cmp, x, s) == []
  {
    if s != [] {
      NoTiesAbove(cmp, x, s[1..]);
    }
  }

  /** Merging a later run `a` with an earlier run `b` puts the ties of `b` first. */
  lemma {:induction false} MergeStable<T(!new)>(cmp: (T, T) -> int, x: T, a: seq<T>, b: seq<T>)
    requires TotalPreorder(cmp) && Sorted(cmp, a) && Sorted(cmp, b)
    ensures Ties(cmp, x, Merge(cmp, a, b)) == Ties(cmp, x, b) + Ties(cmp, x, a)
    decreases |a| + |b|
  {
    if a == [] || b == [] {
      assert Ties(cmp, x, []) == [];
    } else if cmp(a[0], b[0]) < 0 {
      SortedTail(cmp, a);
      MergeStable(cmp, x, a[1..], b);
      assert Merge(cmp, a, b)[1..] == Merge(cmp, a[1..], b);
      if Tied(cmp, x, a[0]) {
        TiedIsBelow(cmp, x, a[0], b);
        NoTiesAbove(cmp, x, b);
      }
    } else {
      SortedTail(cmp, b);
      MergeStable(cmp, x, a, b[1..]);
      assert Merge(cmp, a, b)[1..] == Merge(cmp, a, b[1..]);
    }
  }

  lemma TiedIsBelow<T(!new)>(cmp: (T, T) -> int, x: T, y: T, b: seq<T>)
    requires TotalPreorder(cmp) && Sorted(cmp, b) && b != [] && Tied(cmp, x, y) && cmp(y, b[0]) < 0
    ensures forall i | 0 <= i < |b| :: cmp(x, b[i]) < 0
  {
    forall i | 0 <= i < |b| ensures cmp(x, b[i]) < 0 {
      assert i > 0 ==> !(cmp(b[i], b[0]) < 0);
      Transitive(cmp, b[i], x, y);
      Transitive(cmp, b[0], b[i], y);
    }
  }

  lemma {:induction false} SortIsStableSort<T(!new)>(cmp: (T, T) -> int, s: seq<T>)
    requires TotalPreorder(cmp)
    ensures StableSortOf(cmp, Sort(cmp, s), s)
  {
    if s != [] {
      var init, last := s[..|s| - 1], [s[|s| - 1]];
      SortIsStableSort(cmp, init);
      assert s == init + last;
      MergeKeeps(cmp, last, Sort(cmp, init));
      MergeSorted(cmp, last, Sort(cmp, init));
      forall x ensures Ties(cmp, x, Sort(cmp, s)) == Ties(cmp, x, s) {
        MergeStable(cmp, x, last, Sort(cmp, init));
        TiesConcat(cmp, x, init, last);
      }
    }
  }
}
