/** Sorting configurations: the list sort with `ItemCmp`, which makes the list of a kernel
    canonical. */
module ItemSort {
  import opened Grammars
  import opened Automata
  import opened MergeSort

  lemma ItemCmpIsTotal()
    ensures TotalPreorder(ItemCmp)
  {
  }

  lemma {:induction false} DistinctMultiset<T>(s: seq<T>)
    ensures Distinct(s) <==> forall x :: multiset(s)[x] <= 1
    decreases |s|
  {
    if s != [] {
      var init, last := s[..|s| - 1], s[|s| - 1];
      DistinctMultiset(init);
      assert s == init + [last];
      if forall x :: multiset(s)[x] <= 1 {
        forall x ensures multiset(init)[x] <= 1 { assert multiset(s)[x] <= 1; }
        assert multiset(s)[last] <= 1;
        assert last !in init;
        assert Distinct(s);
      }
      if Distinct(s) {
        assert Distinct(init) by {
          forall i, j | 0 <= i < j < |init| ensures init[i] != init[j] { assert s[i] != s[j]; }
        }
        assert last !in init;
        assert multiset(init)[last] == 0;
      }
    }
  }

  lemma {:induction false} DistinctCount(s: seq<Item>)
    requires Distinct(s)
    ensures |ItemSet(s)| == |s|
  {
    if s != [] {
      var init := s[..|s| - 1];
      DistinctCount(init);
      assert ItemSet(s) == ItemSet(init) + {s[|s| - 1]};
    }
  }

  lemma SubsetCount(s: set<Item>, t: set<Item>)
    requires s <= t
    ensures |s| <= |t|
  {
    assert t == s + (t - s);
  }

  lemma StableSortOrders(t: seq<Item>, s: seq<Item>)
    requires StableSortOf(ItemCmp, t, s) && Distinct(s)
    ensures Ordered(t) && ItemSet(t) == ItemSet(s)
  {
    DistinctMultiset(s);
    DistinctMultiset(t);
    forall it ensures it in t <==> it in s {
      assert it in t <==> it in multiset(t);
      assert it in s <==> it in multiset(s);
    }
    forall i, j | 0 <= i < j < |t| ensures ItemCmp(t[i], t[j]) < 0 {
      assert t[i] != t[j] && !(ItemCmp(t[j], t[i]) < 0);
    }
  }

  method SortItems(g: Grammar, s: seq<Item>) returns (t: seq<Item>)
    requires FewItems(g) && Distinct(s) && forall it | it in s :: WfItem(g, it)
    ensures Ordered(t) && ItemSet(t) == ItemSet(s)
    ensures forall i, j :: 0 <= i < j < |t| ==>
              t[i].rule < t[j].rule || (t[i].rule == t[j].rule && t[i].dot < t[j].dot)
  {
    ItemCmpIsTotal();
    DistinctCount(s);
    SubsetCount(ItemSet(s), AllItems(g));
    t := MSort(ItemCmp, s);
    SortIsStableSort(ItemCmp, s);
    StableSortOrders(t, s);
  }
}
