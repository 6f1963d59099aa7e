/** The action table under construction: transaction sets are packed into one array of slots,
    overlapping wherever they fit. */
module ActTabs {

  datatype Slot = Slot(lookahead: int, action: int)

  const EMPTY := Slot(-1, -1)

  /** A transaction set with the offset that was returned for it. */
  datatype Packed = Packed(offset: int, entries: seq<Slot>)

  ghost predicate HasLookahead(entries: seq<Slot>, x: int) {
    exists k :: 0 <= k < |entries| && entries[k].lookahead == x
  }

  /** A transaction set that may be inserted: it is not empty, and no lookahead occurs twice. */
  ghost predicate IsTransaction(t: seq<Slot>) {
    && (forall k | 0 <= k < |t| :: t[k].lookahead >= 0)
    && (forall i, j :: 0 <= i < j < |t| ==> t[i].lookahead != t[j].lookahead)
  }

  /** Slot `offset + x` is in range and carries lookahead `x`. */
  ghost predicate At(slots: seq<Slot>, n: nat, offset: int, x: int) {
    0 <= offset + x < n && n <= |slots| && slots[offset + x].lookahead == x
  }

  /** Exactly the lookaheads of the set are found at its offset, with their actions. */
  ghost predicate Holds(slots: seq<Slot>, n: nat, p: Packed) {
    && p.entries != []
    && (forall x: nat :: At(slots, n, p.offset, x) <==> HasLookahead(p.entries, x))
    && (forall k | 0 <= k < |p.entries| ::
         At(slots, n, p.offset, p.entries[k].lookahead) && slots[p.offset + p.entries[k].lookahead] == p.entries[k])
  }

  ghost predicate AllHold(slots: seq<Slot>, n: nat, sets: seq<Packed>) {
    forall k | 0 <= k < |sets| :: Holds(slots, n, sets[k])
  }

  /** Slots from `n` on are unused. */
  ghost predicate UnusedFrom(slots: seq<Slot>, n: nat) {
    n <= |slots| && forall k | n <= k < |slots| :: slots[k] == EMPTY
  }

  // ----- Writing a set at an offset -----

  /** `after` is `before` with the set `t` written at offset `o`, `m` slots now being in use. */
  ghost predicate Written(before: seq<Slot>, n: nat, after: seq<Slot>, m: nat, t: seq<Slot>, o: int) {
    && |after| == |before| && n <= m <= |after|
    && (forall k | 0 <= k < |t| :: 0 <= o + t[k].lookahead < m && after[o + t[k].lookahead] == t[k])
    && (forall q | 0 <= q < |after| && !HasLookahead(t, q - o) :: after[q] == before[q])
    && (n < m ==> HasLookahead(t, m - 1 - o))
  }

  /** The set goes into empty slots, and nothing found at offset `o` so far. */
  ghost predicate FitsAt(slots: seq<Slot>, n: nat, t: seq<Slot>, o: int) {
    && (forall k | 0 <= k < |t| :: 0 <= o + t[k].lookahead < |slots| && slots[o + t[k].lookahead].lookahead < 0)
    && (forall x: nat :: !At(slots, n, o, x))
  }

  /** The set is there already, and nothing else at that offset. */
  ghost predicate PresentAt(slots: seq<Slot>, n: nat, t: seq<Slot>, o: int) {
    && n <= |slots|
    && (forall k | 0 <= k < |t| :: 0 <= o + t[k].lookahead < n && slots[o + t[k].lookahead] == t[k])
    && (forall x: nat | At(slots, n, o, x) :: HasLookahead(t, x))
  }

  /** An unused slot right in front of the offset carries the mark -1, which the source takes for a
      lookahead found at the offset. */
  ghost predicate HoleInFront(slots: seq<Slot>, n: nat, o: int) {
    0 < o <= n <= |slots| && slots[o - 1].lookahead == -1
  }

  /** Whether the source takes offset `o` for the set. */
  ghost predicate Takes(slots: seq<Slot>, n: nat, t: seq<Slot>, o: int) {
    PresentAt(slots, n, t, o) || (FitsAt(slots, n, t, o) && !HoleInFront(slots, n, o))
  }

  /** The leftmost offset that is taken for a set with least lookahead `mn`; the last is `n`, where the
      set is appended. */
  ghost predicate Leftmost(slots: seq<Slot>, n: nat, t: seq<Slot>, mn: int, o: int) {
    && o <= n && (if o < n then Takes(slots, n, t, o) else FitsAt(slots, n, t, o))
    && forall p | -mn <= p < o :: !Takes(slots, n, t, p)
  }

  ghost predicate Marked(slots: seq<Slot>) {
    forall q | 0 <= q < |slots| :: slots[q].lookahead >= -1
  }

  /** A set that would fit and is not taken: after {0, 4} and {1, 5} the table has holes at 1, 3 and 5,
      and a set with the one lookahead 1 would fit at offset 2. */
  lemma FitsButRefused(a: int, b: int, c: int, d: int, e: int)
    ensures var slots := [Slot(0, a), EMPTY, Slot(1, b), EMPTY, Slot(4, c), EMPTY, Slot(5, d), EMPTY, EMPTY];
      && Holds(slots, 7, Packed(0, [Slot(0, a), Slot(4, c)])) && Holds(slots, 7, Packed(1, [Slot(1, b), Slot(5, d)]))
      && FitsAt(slots, 7, [Slot(1, e)], 2) && !Takes(slots, 7, [Slot(1, e)], 2)
  {
    var s0, s1 := [Slot(0, a), Slot(4, c)], [Slot(1, b), Slot(5, d)];
    assert s0[0].lookahead == 0 && s0[1].lookahead == 4 && s1[0].lookahead == 1 && s1[1].lookahead == 5;
    var slots := [Slot(0, a), EMPTY, Slot(1, b), EMPTY, Slot(4, c), EMPTY, Slot(5, d), EMPTY, EMPTY];
    forall x: nat ensures At(slots, 7, 0, x) <==> HasLookahead(s0, x) {}
    forall x: nat ensures At(slots, 7, 1, x) <==> HasLookahead(s1, x) {}
    var t := [Slot(1, e)];
    assert t[0].lookahead == 1 && slots[2 + t[0].lookahead] != t[0] && slots[2 - 1].lookahead == -1;
  }

  lemma NewSetHolds(before: seq<Slot>, n: nat, after: seq<Slot>, m: nat, t: seq<Slot>, o: int)
    requires UnusedFrom(before, n) && IsTransaction(t) && t != [] && Written(before, n, after, m, t, o)
    requires FitsAt(before, n, t, o) || PresentAt(before, n, t, o)
    ensures Holds(after, m, Packed(o, t))
  {
    forall x: nat ensures At(after, m, o, x) <==> HasLookahead(t, x) {
      if HasLookahead(t, x) {
        var k :| 0 <= k < |t| && t[k].lookahead == x;
        assert after[o + t[k].lookahead] == t[k];
      } else {
        assert o + x - o == x;
        assert 0 <= o + x < m ==> after[o + x] == before[o + x];
        assert !At(before, n, o, x);
      }
    }
  }

  lemma RewriteChangesNothing(before: seq<Slot>, n: nat, after: seq<Slot>, m: nat, t: seq<Slot>, o: int)
    requires PresentAt(before, n, t, o) && Written(before, n, after, m, t, o)
    ensures after == before && m == n
  {
    forall q | 0 <= q < |after| ensures after[q] == before[q] {
      if HasLookahead(t, q - o) {
        var k :| 0 <= k < |t| && t[k].lookahead == q - o;
        assert after[o + t[k].lookahead] == t[k] == before[o + t[k].lookahead];
      }
    }
    forall k | 0 <= k < |t| ensures t[k].lookahead == m - 1 - o ==> m - 1 < n {
      assert o + t[k].lookahead < n;
    }
  }

  lemma OtherOffsetUntouched(before: seq<Slot>, n: nat, after: seq<Slot>, m: nat, t: seq<Slot>, o: int, p: int, x: nat)
    requires UnusedFrom(before, n) && FitsAt(before, n, t, o) && Written(before, n, after, m, t, o) && p != o
    requires forall k | 0 <= k < |t| :: t[k].lookahead >= 0
    ensures At(after, m, p, x) <==> At(before, n, p, x)
    ensures At(before, n, p, x) ==> after[p + x] == before[p + x]
  {
    var q := p + x;
    if 0 <= q < m {
      if HasLookahead(t, q - o) {
        var k :| 0 <= k < |t| && t[k].lookahead == q - o;
        assert after[o + t[k].lookahead] == t[k] && before[o + t[k].lookahead].lookahead < 0;
      }
    }
  }

  lemma OldSetHolds(before: seq<Slot>, n: nat, after: seq<Slot>, m: nat, t: seq<Slot>, o: int, p: Packed)
    requires UnusedFrom(before, n) && IsTransaction(t) && Written(before, n, after, m, t, o)
    requires FitsAt(before, n, t, o) || PresentAt(before, n, t, o)
    requires Holds(before, n, p) && IsTransaction(p.entries)
    ensures Holds(after, m, p)
  {
    hide Written, UnusedFrom, At;
    if PresentAt(before, n, t, o) {
      RewriteChangesNothing(before, n, after, m, t, o);
    } else {
      assert At(before, n, p.offset, p.entries[0].lookahead);
      forall x: nat
        ensures At(after, m, p.offset, x) <==> At(before, n, p.offset, x)
        ensures At(before, n, p.offset, x) ==>
          0 <= p.offset + x < |before| && p.offset + x < |after| && after[p.offset + x] == before[p.offset + x]
      {
        OtherOffsetUntouched(before, n, after, m, t, o, p.offset, x);
        AtInRange(before, n, after, m, p.offset, x);
      }
    }
  }

  lemma AtInRange(before: seq<Slot>, n: nat, after: seq<Slot>, m: nat, p: int, x: nat)
    requires At(before, n, p, x) <==> At(after, m, p, x)
    ensures At(before, n, p, x) ==> 0 <= p + x < |before| && 0 <= p + x < |after|
  {
  }

  lemma StillUnused(before: seq<Slot>, n: nat, after: seq<Slot>, m: nat, t: seq<Slot>, o: int)
    requires UnusedFrom(before, n) && Written(before, n, after, m, t, o)
    ensures UnusedFrom(after, m)
  {
    forall q | m <= q < |after| ensures after[q] == EMPTY {
      forall k | 0 <= k < |t| ensures t[k].lookahead != q - o {
        assert o + t[k].lookahead < m;
      }
    }
  }

  lemma StillMarked(before: seq<Slot>, n: nat, after: seq<Slot>, m: nat, t: seq<Slot>, o: int)
    requires Marked(before) && IsTransaction(t) && Written(before, n, after, m, t, o)
    ensures Marked(after)
  {
    forall q | 0 <= q < |after| ensures after[q].lookahead >= -1 {
      if HasLookahead(t, q - o) {
        var k :| 0 <= k < |t| && t[k].lookahead == q - o;
        assert after[o + t[k].lookahead] == t[k];
      }
    }
  }

  // ----- The count that recognises an identical set -----

  ghost function Matches(slots: seq<Slot>, n: nat, o: int): set<int>
    requires n <= |slots|
  {
    set j | 0 <= j < n && slots[j].lookahead >= 0 && slots[j].lookahead == j - o
  }

  ghost function Places(t: seq<Slot>, o: int): set<int> {
    set k | 0 <= k < |t| :: o + t[k].lookahead
  }

  lemma {:induction false} PlacesCount(t: seq<Slot>, o: int)
    requires IsTransaction(t)
    ensures |Places(t, o)| == |t|
  {
    if t == [] {
      assert Places(t, o) == {};
    } else {
      var init, last := t[..|t| - 1], t[|t| - 1];
      PlacesCount(init, o);
      forall k | 0 <= k < |init| ensures init[k] == t[k] {}
      PlacesSplit(t, o);
    }
  }

  lemma PlacesSplit(t: seq<Slot>, o: int)
    requires IsTransaction(t) && t != []
    ensures Places(t, o) == Places(t[..|t| - 1], o) + {o + t[|t| - 1].lookahead}
    ensures o + t[|t| - 1].lookahead !in Places(t[..|t| - 1], o)
  {
    var init := t[..|t| - 1];
    forall k | 0 <= k < |init| ensures init[k] == t[k] && init[k].lookahead != t[|t| - 1].lookahead {}
    forall p ensures p in Places(t, o) <==> p in Places(init, o) + {o + t[|t| - 1].lookahead} {
      if p in Places(t, o) {
        var k :| 0 <= k < |t| && p == o + t[k].lookahead;
        assert k < |init| ==> init[k] == t[k];
      }
    }
  }

  lemma SameCountIffPresent(slots: seq<Slot>, n: nat, t: seq<Slot>, o: int)
    requires n <= |slots| && IsTransaction(t)
    requires forall k | 0 <= k < |t| :: 0 <= o + t[k].lookahead < n && slots[o + t[k].lookahead] == t[k]
    ensures |Matches(slots, n, o)| == |t| <==> PresentAt(slots, n, t, o)
  {
    PlacesCount(t, o);
    assert Places(t, o) <= Matches(slots, n, o);
    if |Matches(slots, n, o)| == |t| {
      SubsetSameSize(Places(t, o), Matches(slots, n, o));
      forall x: nat | At(slots, n, o, x) ensures HasLookahead(t, x) {
        assert o + x in Matches(slots, n, o);
      }
    }
    if PresentAt(slots, n, t, o) {
      forall j | j in Matches(slots, n, o) ensures j in Places(t, o) {
        var x: nat := j - o;
        assert At(slots, n, o, x);
      }
      assert Places(t, o) == Matches(slots, n, o);
    }
  }

  lemma SubsetSameSize<T>(a: set<T>, b: set<T>)
    requires a <= b && |a| == |b|
    ensures a == b
  {
    assert b == a + (b - a);
    assert |b| == |a| + |b - a|;
  }

  lemma NothingFoundIff(slots: seq<Slot>, n: nat, o: int)
    requires n <= |slots| && Marked(slots)
    ensures (forall k | 0 <= k < n :: slots[k].lookahead != k - o)
       <==> (forall x: nat :: !At(slots, n, o, x)) && !HoleInFront(slots, n, o)
  {
    if (forall x: nat :: !At(slots, n, o, x)) && !HoleInFront(slots, n, o) {
      forall k | 0 <= k < n ensures slots[k].lookahead != k - o {
        if slots[k].lookahead >= 0 && k >= o {
          var x: nat := k - o;
          assert !At(slots, n, o, x);
        }
      }
    }
  }

  // ----- The table -----

  class ActTab {
    var nAction: nat
    var aAction: seq<Slot>
    var aLookahead: seq<Slot>
    var mnLookahead: int
    var mnAction: int
    var mxLookahead: int
    ghost var sets: seq<Packed>

    /** The invariant over any number of insertions: every set inserted so far is found exactly. */
    ghost predicate Valid()
      reads this
    {
      && UnusedFrom(aAction, nAction) && Marked(aAction)
      && AllHold(aAction, nAction, sets)
      && (forall k | 0 <= k < |sets| :: IsTransaction(sets[k].entries))
      && IsTransaction(aLookahead)
      && (aLookahead != [] ==>
            && Slot(mnLookahead, mnAction) in aLookahead
            && HasLookahead(aLookahead, mxLookahead)
            && forall k | 0 <= k < |aLookahead| :: mnLookahead <= aLookahead[k].lookahead <= mxLookahead)
    }

    constructor ()
      ensures Valid() && sets == [] && aLookahead == []
    {
      nAction, aAction, aLookahead := 0, [], [];
      mnLookahead, mnAction, mxLookahead := 0, 0, 0;
      sets := [];
    }

    /** Add an action to the current transaction set. */
    method Action(lookahead: nat, action: int)
      requires Valid() && !HasLookahead(aLookahead, lookahead)
      modifies this`aLookahead, this`mnLookahead, this`mnAction, this`mxLookahead
      ensures Valid() && aLookahead == old(aLookahead) + [Slot(lookahead, action)]
    {
      hide AllHold, UnusedFrom;
      ghost var before := aLookahead;
      if aLookahead == [] {
        mxLookahead, mnLookahead, mnAction := lookahead, lookahead, action;
      } else {
        if mxLookahead < lookahead { mxLookahead := lookahead; }
        if mnLookahead > lookahead { mnLookahead, mnAction := lookahead, action; }
      }
      aLookahead := aLookahead + [Slot(lookahead, action)];
      assert aLookahead[|before|] == Slot(lookahead, action);
      assert forall k | 0 <= k < |before| :: aLookahead[k] == before[k];
      assert HasLookahead(aLookahead, mxLookahead) by {
        if before != [] && HasLookahead(before, mxLookahead) {
          var k :| 0 <= k < |before| && before[k].lookahead == mxLookahead;
          assert aLookahead[k].lookahead == mxLookahead;
        }
      }
    }

    /** Room for the set in the worst case, which is to append it. */
    method Reserve()
      requires Valid() && aLookahead != []
      modifies this`aAction
      ensures Valid() && nAction + mxLookahead + 1 < |aAction|
      ensures old(aAction) <= aAction
    {
      var n := mxLookahead + 1;
      assert n > 0 by {
        var k :| 0 <= k < |aLookahead| && aLookahead[k].lookahead == mxLookahead;
      }
      if nAction + n >= |aAction| {
        var alloc := nAction + n + |aAction| + 20;
        ghost var before := aAction;
        aAction := aAction + seq(alloc - |aAction|, _ => EMPTY);
        forall k | 0 <= k < |sets| ensures Holds(aAction, nAction, sets[k]) {
          assert Holds(before, nAction, sets[k]);
          forall x ensures At(aAction, nAction, sets[k].offset, x) <==> At(before, nAction, sets[k].offset, x) {}
        }
      }
    }

    /** Whether the set fits with its least lookahead at index `i`, an empty slot. */
    method TryFit(i: nat) returns (fits: bool)
      requires Valid() && aLookahead != [] && nAction + mxLookahead + 1 < |aAction|
      requires i < nAction + mnLookahead
      ensures var o := i - mnLookahead;
        fits <==> FitsAt(aAction, nAction, aLookahead, o) && !HoleInFront(aAction, nAction, o)
    {
      hide AllHold, IsTransaction;
      for j := 0 to |aLookahead|
        invariant forall k | 0 <= k < j ::
            (0 <= i - mnLookahead + aLookahead[k].lookahead < |aAction| &&
             aAction[i - mnLookahead + aLookahead[k].lookahead].lookahead < 0)
      {
        var k := aLookahead[j].lookahead - mnLookahead + i;
        if k < 0 { return false; }
        if aAction[k].lookahead >= 0 { return false; }
      }
      NothingFoundIff(aAction, nAction, i - mnLookahead);
      for j := 0 to nAction
        invariant forall k | 0 <= k < j :: aAction[k].lookahead != k - (i - mnLookahead)
      {
        if aAction[j].lookahead == j + mnLookahead - i { return false; }
      }
      fits := true;
    }

    /** Whether the very same set is in the table with its least lookahead at index `i`. */
    method TrySame(i: nat) returns (same: bool)
      requires Valid() && aLookahead != []
      ensures same <==> PresentAt(aAction, nAction, aLookahead, i - mnLookahead)
    {
      hide AllHold, Marked;
      ghost var o := i - mnLookahead;
      for j := 0 to |aLookahead|
        invariant forall k | 0 <= k < j ::
            (0 <= o + aLookahead[k].lookahead < nAction && aAction[o + aLookahead[k].lookahead] == aLookahead[k])
      {
        var k := aLookahead[j].lookahead - mnLookahead + i;
        if k < 0 || k >= nAction { return false; }
        if aLookahead[j].lookahead != aAction[k].lookahead { return false; }
        if aLookahead[j].action != aAction[k].action { return false; }
      }
      var n := 0;
      for j := 0 to nAction
        invariant n == |Matches(aAction, j, o)|
      {
        if aAction[j].lookahead >= 0 && aAction[j].lookahead == j + mnLookahead - i {
          assert Matches(aAction, j + 1, o) == Matches(aAction, j, o) + {j};
          n := n + 1;
        } else {
          assert Matches(aAction, j + 1, o) == Matches(aAction, j, o);
        }
      }
      same := n == |aLookahead|;
      SameCountIffPresent(aAction, nAction, aLookahead, o);
    }

    /** The least index that the source takes, or else the one where the set is appended. */
    method FindIndex() returns (i: nat)
      requires Valid() && aLookahead != [] && nAction + mxLookahead + 1 < |aAction|
      ensures i <= nAction + mnLookahead
      ensures Leftmost(aAction, nAction, aLookahead, mnLookahead, i - mnLookahead)
    {
      hide AllHold, FitsAt, PresentAt, Takes, HoleInFront;
      assert 0 <= mnLookahead <= mxLookahead by { BoundsOrdered(); }
      i := 0;
      while i < nAction + mnLookahead
        invariant i <= nAction + mnLookahead
        invariant forall o | -mnLookahead <= o < i - mnLookahead :: !Takes(aAction, nAction, aLookahead, o)
      {
        TakesOnlyIf(i);
        if aAction[i].lookahead < 0 {
          var fits := TryFit(i);
          if fits { return; }
        } else if aAction[i].lookahead == mnLookahead && aAction[i].action == mnAction {
          var same := TrySame(i);
          if same { return; }
        }
        i := i + 1;
      }
      AppendFits();
    }

    lemma AppendFits()
      requires Valid() && aLookahead != [] && nAction + mxLookahead + 1 < |aAction|
      ensures FitsAt(aAction, nAction, aLookahead, nAction)
    {
      hide AllHold;
    }

    /** What the source looks at first: the slot of the least lookahead. */
    lemma TakesOnlyIf(i: nat)
      requires Valid() && aLookahead != [] && i < nAction + mnLookahead
      requires nAction + mxLookahead + 1 < |aAction|
      ensures i < |aAction|
      ensures var o, slot := i - mnLookahead, aAction[i];
        && (FitsAt(aAction, nAction, aLookahead, o) ==> slot.lookahead < 0)
        && (PresentAt(aAction, nAction, aLookahead, o) ==> slot == Slot(mnLookahead, mnAction) && slot.lookahead >= 0)
        && (Takes(aAction, nAction, aLookahead, o) <==>
            PresentAt(aAction, nAction, aLookahead, o) ||
            (FitsAt(aAction, nAction, aLookahead, o) && !HoleInFront(aAction, nAction, o)))
    {
      hide AllHold, UnusedFrom, Marked;
      var k :| 0 <= k < |aLookahead| && aLookahead[k] == Slot(mnLookahead, mnAction);
      assert i - mnLookahead + aLookahead[k].lookahead == i;
    }

    lemma BoundsOrdered()
      requires Valid() && aLookahead != []
      ensures 0 <= mnLookahead <= mxLookahead
    {
      var k :| 0 <= k < |aLookahead| && aLookahead[k] == Slot(mnLookahead, mnAction);
      assert aLookahead[k].lookahead >= 0;
    }

    /** Insert the current transaction set and return its offset. */
    method Insert() returns (offset: int)
      requires Valid() && aLookahead != []
      modifies this
      ensures Valid() && aLookahead == []
      ensures sets == old(sets) + [Packed(offset, old(aLookahead))]
      ensures exists slots :: old(aAction) <= slots && UnusedFrom(slots, old(nAction)) &&
                Leftmost(slots, old(nAction), old(aLookahead), old(mnLookahead), offset)
    {
      hide AllHold, FitsAt, PresentAt, HasLookahead, UnusedFrom, IsTransaction, Written;
      Reserve();
      BoundsOrdered();
      var i := FindIndex();
      offset := i - mnLookahead;
      ghost var before, n, t := aAction, nAction, aLookahead;
      RoomFor(i);
      WriteAt(i);
      InsertKeeps(before, n, aAction, nAction, t, offset, sets);
      sets := sets + [Packed(offset, t)];
      aLookahead := [];
    }

    lemma RoomFor(i: nat)
      requires Valid() && aLookahead != []
      ensures nAction <= |aAction|
      ensures forall k | 0 <= k < |aLookahead| :: mnLookahead <= aLookahead[k].lookahead <= mxLookahead
    {
    }

    /** Write the current set with its least lookahead at index `i`. */
    method WriteAt(i: nat)
      requires IsTransaction(aLookahead) && 0 <= nAction + mxLookahead + 1 < |aAction| && nAction <= |aAction|
      requires i <= nAction + mnLookahead
      requires forall k | 0 <= k < |aLookahead| :: i - mnLookahead + aLookahead[k].lookahead >= 0
      requires forall k | 0 <= k < |aLookahead| :: mnLookahead <= aLookahead[k].lookahead <= mxLookahead
      modifies this`aAction, this`nAction
      ensures Written(old(aAction), old(nAction), aAction, nAction, aLookahead, i - mnLookahead)
    {
      hide HasLookahead, At;
      ghost var before, n, o := aAction, nAction, i - mnLookahead;
      for j := 0 to |aLookahead|
        invariant |aAction| == |before| && n <= nAction <= |aAction|
        invariant forall k | 0 <= k < j ::
            (0 <= o + aLookahead[k].lookahead < nAction && aAction[o + aLookahead[k].lookahead] == aLookahead[k])
        invariant forall q | 0 <= q < |aAction| && !HasLookahead(aLookahead, q - o) :: aAction[q] == before[q]
        invariant n < nAction ==> HasLookahead(aLookahead, nAction - 1 - o)
      {
        var k := aLookahead[j].lookahead - mnLookahead + i;
        HasAt(aLookahead, j, k - o);
        aAction := aAction[k := aLookahead[j]];
        if k >= nAction { nAction := k + 1; }
      }
    }
  }

  lemma HasAt(t: seq<Slot>, j: nat, x: int)
    requires j < |t| && t[j].lookahead == x
    ensures HasLookahead(t, x)
  {
  }

  lemma InsertKeeps(before: seq<Slot>, n: nat, after: seq<Slot>, m: nat, t: seq<Slot>, o: int, sets: seq<Packed>)
    requires UnusedFrom(before, n) && Marked(before) && IsTransaction(t) && t != []
    requires Written(before, n, after, m, t, o)
    requires FitsAt(before, n, t, o) || PresentAt(before, n, t, o)
    requires AllHold(before, n, sets) && forall k | 0 <= k < |sets| :: IsTransaction(sets[k].entries)
    ensures UnusedFrom(after, m) && Marked(after) && AllHold(after, m, sets + [Packed(o, t)])
    ensures IsTransaction([])
  {
    hide FitsAt, PresentAt, Written, Holds, UnusedFrom;
    StillUnused(before, n, after, m, t, o);
    StillMarked(before, n, after, m, t, o);
    NewSetHolds(before, n, after, m, t, o);
    forall k | 0 <= k < |sets| ensures Holds(after, m, sets[k]) {
      assert IsTransaction(sets[k].entries);
      OldSetHolds(before, n, after, m, t, o, sets[k]);
    }
  }
}
