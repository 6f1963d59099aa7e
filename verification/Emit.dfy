/** The table part of the report: every state's transactions go into the action table, and the
    offset, default and lookahead tables are emitted. */
module Emit {
  import opened Grammars
  import opened Automata
  import opened ActTabs
  import opened ParserTables
  import opened Report

  datatype AxSet = AxSet(stp: nat, isTkn: bool, nAction: nat)

  ghost predicate AxHas(ax: seq<AxSet>, i: nat, isTkn: bool, k: nat) {
    k < |ax| && ax[k].stp == i && ax[k].isTkn == isTkn
  }

  ghost predicate AxListed(ax: seq<AxSet>, i: nat, isTkn: bool) {
    exists k: nat :: AxHas(ax, i, isTkn, k)
  }

  /** The sets of all states, each once, the largest first, in whatever order ties come. */
  ghost predicate IsAx(g: Grammar, num: seq<nat>, aps: seq<seq<Action>>, ax: seq<AxSet>) {
    && (forall k | 0 <= k < |ax| ::
         ax[k].stp < |aps| && ax[k].nAction == |Entries(g, num, aps[ax[k].stp], ax[k].isTkn)|)
    && (forall k, l | 0 <= k < l < |ax| :: ax[k].stp != ax[l].stp || ax[k].isTkn != ax[l].isTkn)
    && (forall k, l | 0 <= k < l < |ax| :: ax[k].nAction >= ax[l].nAction)
    && (forall i: nat, b: bool | i < |aps| :: AxListed(ax, i, b))
  }

  /** Offsets of the sets placed so far; a set without an offset has not been placed. */
  type Offsets = map<(nat, bool), int>

  ghost predicate Placed(g: Grammar, num: seq<nat>, aps: seq<seq<Action>>, sets: seq<Packed>, ofst: Offsets,
                         i: nat, b: bool)
    requires i < |aps|
  {
    (i, b) in ofst && Packed(ofst[(i, b)], Entries(g, num, aps[i], b)) in sets
  }

  /** Turn the transactions of one state into the current transaction set of the table. */
  method BuildSet(p: ActTab, g: Grammar, num: seq<nat>, ap: seq<Action>, isTkn: bool)
    requires p.Valid() && p.aLookahead == [] && UniqueLive(ap)
    modifies p
    ensures p.Valid() && p.aLookahead == Entries(g, num, ap, isTkn) && p.sets == old(p.sets)
  {
    hide UniqueLive, HasLookahead, EffectCode;
    for k := 0 to |ap|
      invariant p.Valid() && p.aLookahead == Entries(g, num, ap[..k], isTkn) && p.sets == old(p.sets)
    {
      EntriesSnoc(g, num, ap, isTkn, k);
      hide Entries;
      if InTransaction(g, isTkn, ap[k].sp) {
        var action := ComputeAction(num, |g.rules|, ap[k]);
        if action >= 0 {
          p.Action(ap[k].sp, action);
        }
      }
    }
    assert ap[..|ap|] == ap;
  }

  /** The transactions up to the next action, whose symbol is not among those before it. */
  lemma EntriesSnoc(g: Grammar, num: seq<nat>, ap: seq<Action>, isTkn: bool, k: nat)
    requires UniqueLive(ap) && k < |ap|
    ensures var sp, code := ap[k].sp, ComputeAction(num, |g.rules|, ap[k]);
      && Entries(g, num, ap[..k + 1], isTkn) ==
           Entries(g, num, ap[..k], isTkn) + (if InTransaction(g, isTkn, sp) && code >= 0 then [Slot(sp, code)] else [])
      && (code >= 0 ==> !HasLookahead(Entries(g, num, ap[..k], isTkn), sp))
  {
    assert ap[..k + 1][..k] == ap[..k];
    EntriesMembers(g, num, ap[..k], isTkn, ap[k].sp);
  }

  method PackSets(g: Grammar, num: seq<nat>, aps: seq<seq<Action>>, ax: seq<AxSet>)
    returns (p: ActTab, ofst: Offsets, mnTkn: int, mnNt: int)
    requires IsAx(g, num, aps, ax) && forall i | 0 <= i < |aps| :: UniqueLive(aps[i])
    ensures p.Valid() && fresh(p)
    ensures p.nAction <= |p.aAction| && AllHold(p.aAction, p.nAction, p.sets)
    ensures forall i: nat, b: bool :: (i, b) in ofst <==> i < |aps| && Entries(g, num, aps[i], b) != []
    ensures forall i: nat, b: bool | (i, b) in ofst :: Placed(g, num, aps, p.sets, ofst, i, b)
    ensures forall i: nat, b: bool | (i, b) in ofst :: (if b then mnTkn else mnNt) <= ofst[(i, b)]
  {
    hide UniqueLive, IsAx, PackedUpTo;
    p := new ActTab();
    ofst, mnTkn, mnNt := map[], 0, 0;
    var k := 0;
    PackedNothing(g, num, aps, ax);
    while k < |ax| && ax[k].nAction > 0
      invariant 0 <= k <= |ax|
      invariant fresh(p) && p.Valid() && p.aLookahead == []
      invariant PackedUpTo(g, num, aps, ax, p.sets, ofst, mnTkn, mnNt, k)
    {
      var i, b := ax[k].stp, ax[k].isTkn;
      AxEntry(g, num, aps, ax, k);
      BuildSet(p, g, num, aps[i], b);
      ghost var sets := p.sets;
      var o := p.Insert();
      PackedNext(g, num, aps, ax, sets, ofst, mnTkn, mnNt, k, o);
      ofst := ofst[(i, b) := o];
      if b {
        if o < mnTkn { mnTkn := o; }
      } else {
        if o < mnNt { mnNt := o; }
      }
      k := k + 1;
    }
    PackedAll(g, num, aps, ax, p.sets, ofst, mnTkn, mnNt, k);
  }

  /** The first `k` sets have been placed, at offsets no smaller than the two minima. */
  ghost predicate PackedUpTo(g: Grammar, num: seq<nat>, aps: seq<seq<Action>>, ax: seq<AxSet>, sets: seq<Packed>,
        ofst: Offsets, mnTkn: int, mnNt: int, k: nat) {
    && k <= |ax|
    && (forall j | 0 <= j < k :: ax[j].nAction > 0)
    && (forall i: nat, b: bool :: (i, b) in ofst <==> AxListed(ax[..k], i, b))
    && (forall i: nat, b: bool | (i, b) in ofst :: i < |aps| && Placed(g, num, aps, sets, ofst, i, b))
    && (forall i: nat, b: bool | (i, b) in ofst :: (if b then mnTkn else mnNt) <= ofst[(i, b)])
  }

  lemma PackedNothing(g: Grammar, num: seq<nat>, aps: seq<seq<Action>>, ax: seq<AxSet>)
    ensures PackedUpTo(g, num, aps, ax, [], map[], 0, 0, 0)
  {
  }

  lemma AxEntry(g: Grammar, num: seq<nat>, aps: seq<seq<Action>>, ax: seq<AxSet>, k: nat)
    requires IsAx(g, num, aps, ax) && k < |ax|
    ensures ax[k].stp < |aps| && ax[k].nAction == |Entries(g, num, aps[ax[k].stp], ax[k].isTkn)|
  {
  }

  lemma PackedNext(g: Grammar, num: seq<nat>, aps: seq<seq<Action>>, ax: seq<AxSet>, sets: seq<Packed>, ofst: Offsets,
        mnTkn: int, mnNt: int, k: nat, o: int)
    requires PackedUpTo(g, num, aps, ax, sets, ofst, mnTkn, mnNt, k) && k < |ax| && ax[k].nAction > 0
    requires ax[k].stp < |aps|
    ensures var i, b := ax[k].stp, ax[k].isTkn;
      PackedUpTo(g, num, aps, ax, sets + [Packed(o, Entries(g, num, aps[i], b))], ofst[(i, b) := o],
                 if b && o < mnTkn then o else mnTkn, if !b && o < mnNt then o else mnNt, k + 1)
  {
    var i, b := ax[k].stp, ax[k].isTkn;
    var sets', ofst' := sets + [Packed(o, Entries(g, num, aps[i], b))], ofst[(i, b) := o];
    assert sets'[|sets|] in sets';
    forall j: nat, c: bool ensures (j, c) in ofst' <==> AxListed(ax[..k + 1], j, c) {
      if AxListed(ax[..k], j, c) {
        var m: nat :| AxHas(ax[..k], j, c, m);
        assert AxHas(ax[..k + 1], j, c, m);
      }
      if j == i && c == b {
        assert AxHas(ax[..k + 1], i, b, k);
      } else if AxListed(ax[..k + 1], j, c) {
        var m: nat :| AxHas(ax[..k + 1], j, c, m);
        assert AxHas(ax[..k], j, c, m);
      }
    }
  }

  lemma PackedAll(g: Grammar, num: seq<nat>, aps: seq<seq<Action>>, ax: seq<AxSet>, sets: seq<Packed>, ofst: Offsets,
        mnTkn: int, mnNt: int, k: nat)
    requires IsAx(g, num, aps, ax) && PackedUpTo(g, num, aps, ax, sets, ofst, mnTkn, mnNt, k)
    requires k < |ax| ==> ax[k].nAction == 0
    ensures forall i: nat, b: bool :: (i, b) in ofst <==> i < |aps| && Entries(g, num, aps[i], b) != []
    ensures forall i: nat, b: bool | (i, b) in ofst :: Placed(g, num, aps, sets, ofst, i, b)
    ensures forall i: nat, b: bool | (i, b) in ofst :: (if b then mnTkn else mnNt) <= ofst[(i, b)]
  {
    RestEmpty(g, num, aps, ax, k, ofst);
  }

  lemma RestEmpty(g: Grammar, num: seq<nat>, aps: seq<seq<Action>>, ax: seq<AxSet>, k: nat, ofst: Offsets)
    requires IsAx(g, num, aps, ax) && k <= |ax| && (k < |ax| ==> ax[k].nAction == 0)
    requires forall j | 0 <= j < k :: ax[j].nAction > 0
    requires forall i: nat, b: bool :: (i, b) in ofst <==> AxListed(ax[..k], i, b)
    ensures forall i: nat, b: bool :: (i, b) in ofst <==> i < |aps| && Entries(g, num, aps[i], b) != []
  {
    forall i: nat, b: bool ensures (i, b) in ofst <==> i < |aps| && Entries(g, num, aps[i], b) != [] {
      if AxListed(ax[..k], i, b) {
        var m: nat :| AxHas(ax[..k], i, b, m);
        assert ax[m].stp == i;
      }
      if i < |aps| {
        assert AxListed(ax, i, b);
        var j: nat :| AxHas(ax, i, b, j);
        assert j >= k ==> ax[j].nAction == 0;
        if j < k {
          assert AxHas(ax[..k], i, b, j);
        }
        if AxListed(ax[..k], i, b) {
          var m: nat :| AxHas(ax[..k], i, b, m);
          assert AxHas(ax, i, b, m);
        }
      }
    }
  }

  // ----- Emission -----

  /** One row of an offset table does its duty: a state without transactions is past the end of
      the table or carries the use-default mark, which is no other state's offset; any other
      state finds exactly its transactions. */
  ghost predicate RowOk(tb: Tables, rows: seq<int>, useDflt: int, s: nat, entries: seq<Slot>)
    requires |tb.yyLookahead| == |tb.yyAction|
  {
    if entries == [] then s >= |rows| || rows[s] == useDflt
    else
      && s < |rows| && rows[s] != useDflt
      && forall x: nat | x < tb.nsymbol ::
           && (Hit(tb, rows[s], x).Some? <==> HasLookahead(entries, x))
           && (Hit(tb, rows[s], x).Some? ==> Slot(x, Hit(tb, rows[s], x).value) in entries)
  }

  ghost predicate TablesFor(g: Grammar, num: seq<nat>, aps: seq<seq<Action>>, tb: Tables) {
    && tb.nstate == |aps| && tb.nrule == |g.rules| && tb.nsymbol == g.nsymbol && |num| == |aps|
    && WfTables(tb)
    && (forall i: nat | i < |aps| ::
          && num[i] < |aps|
          && RowOk(tb, tb.shiftOfst, tb.shiftUseDflt, num[i], Entries(g, num, aps[i], true))
          && RowOk(tb, tb.reduceOfst, tb.reduceUseDflt, num[i], Entries(g, num, aps[i], false))
          && tb.yyDefault[num[i]] == DefaultOf(g, num, aps[i]))
    && tb.fallback == (if forall t | 0 <= t < |g.fallback| :: g.fallback[t] == 0 then [] else g.fallback)
    && tb.wildcard == g.wildcard && tb.errsym == g.errsym
    && (forall r | 0 <= r < |g.rules| :: tb.ruleInfo[r] == RuleInfo(g.rules[r].lhs, |g.rules[r].rhs| % 256))
  }

  /** The rows of one offset table, cut off after the last state that has transactions. */
  method EmitRows(sorted: seq<nat>, ofst: Offsets, isTkn: bool, mn: int) returns (rows: seq<int>)
    ensures |rows| <= |sorted| && (rows != [] ==> (sorted[|rows| - 1], isTkn) in ofst)
    ensures forall s | 0 <= s < |sorted| && (sorted[s], isTkn) in ofst ::
      s < |rows| && rows[s] == ofst[(sorted[s], isTkn)]
    ensures forall s | 0 <= s < |rows| && (sorted[s], isTkn) !in ofst :: rows[s] == mn - 1
  {
    var n := |sorted|;
    while n > 0 && (sorted[n - 1], isTkn) !in ofst
      invariant 0 <= n <= |sorted|
      invariant forall s | n <= s < |sorted| :: (sorted[s], isTkn) !in ofst
    {
      n := n - 1;
    }
    rows := [];
    for s := 0 to n
      invariant |rows| == s
      invariant forall k | 0 <= k < s ::
        rows[k] == if (sorted[k], isTkn) in ofst then ofst[(sorted[k], isTkn)] else mn - 1
    {
      rows := rows + [if (sorted[s], isTkn) in ofst then ofst[(sorted[s], isTkn)] else mn - 1];
    }
  }

  method EmitSlots(slots: seq<Slot>, n: nat, nsymbol: nat, noAction: int)
    returns (actions: seq<int>, lookaheads: seq<int>)
    requires n <= |slots|
    ensures |actions| == |lookaheads| == n
    ensures forall k | 0 <= k < n :: actions[k] == if slots[k].action < 0 then noAction else slots[k].action
    ensures forall k | 0 <= k < n :: lookaheads[k] == if slots[k].lookahead < 0 then nsymbol else slots[k].lookahead
  {
    actions, lookaheads := [], [];
    for k := 0 to n
      invariant |actions| == |lookaheads| == k
      invariant forall j | 0 <= j < k :: actions[j] == if slots[j].action < 0 then noAction else slots[j].action
      invariant forall j | 0 <= j < k :: lookaheads[j] == if slots[j].lookahead < 0 then nsymbol else slots[j].lookahead
    {
      actions := actions + [if slots[k].action < 0 then noAction else slots[k].action];
      lookaheads := lookaheads + [if slots[k].lookahead < 0 then nsymbol else slots[k].lookahead];
    }
  }

  lemma HitIsEntry(tb: Tables, slots: seq<Slot>, n: nat, p: Packed, x: nat)
    requires |tb.yyAction| == |tb.yyLookahead| == n <= |slots| && Holds(slots, n, p) && x < tb.nsymbol
    requires forall k | 0 <= k < |p.entries| :: p.entries[k].lookahead >= 0 && p.entries[k].action >= 0
    requires forall k | 0 <= k < n :: slots[k].action >= 0 ==> tb.yyAction[k] == slots[k].action
    requires forall k | 0 <= k < n ::
      tb.yyLookahead[k] == if slots[k].lookahead < 0 then tb.nsymbol else slots[k].lookahead
    ensures Hit(tb, p.offset, x).Some? <==> HasLookahead(p.entries, x)
    ensures Hit(tb, p.offset, x).Some? ==> Slot(x, Hit(tb, p.offset, x).value) in p.entries
  {
    assert At(slots, n, p.offset, x) <==> Hit(tb, p.offset, x).Some?;
    if HasLookahead(p.entries, x) {
      var k :| 0 <= k < |p.entries| && p.entries[k].lookahead == x;
      assert At(slots, n, p.offset, p.entries[k].lookahead);
      assert slots[p.offset + x] == p.entries[k];
    }
  }

  lemma RowIsOk(g: Grammar, num: seq<nat>, sorted: seq<nat>, aps: seq<seq<Action>>, tb: Tables, slots: seq<Slot>,
        n: nat, sets: seq<Packed>, ofst: Offsets, rows: seq<int>, mn: int, i: nat, b: bool)
    requires Numbering(|aps|, num, sorted) && i < |aps| && tb.nsymbol == g.nsymbol
    requires |tb.yyAction| == |tb.yyLookahead| == n <= |slots| && AllHold(slots, n, sets)
    requires forall k | 0 <= k < n :: slots[k].action >= 0 ==> tb.yyAction[k] == slots[k].action
    requires forall k | 0 <= k < n ::
      tb.yyLookahead[k] == if slots[k].lookahead < 0 then tb.nsymbol else slots[k].lookahead
    requires (i, b) in ofst <==> Entries(g, num, aps[i], b) != []
    requires (i, b) in ofst ==> Placed(g, num, aps, sets, ofst, i, b) && mn <= ofst[(i, b)]
    requires (i, b) in ofst ==> num[i] < |rows| && rows[num[i]] == ofst[(i, b)]
    requires (i, b) !in ofst && num[i] < |rows| ==> rows[num[i]] == mn - 1
    ensures RowOk(tb, rows, mn - 1, num[i], Entries(g, num, aps[i], b))
  {
    hide Holds;
    var entries := Entries(g, num, aps[i], b);
    if entries != [] {
      var p := Packed(ofst[(i, b)], entries);
      var k :| 0 <= k < |sets| && sets[k] == p;
      EntriesMembers(g, num, aps[i], b, 0);
      forall x: nat | x < tb.nsymbol
        ensures Hit(tb, rows[num[i]], x).Some? <==> HasLookahead(entries, x)
        ensures Hit(tb, rows[num[i]], x).Some? ==> Slot(x, Hit(tb, rows[num[i]], x).value) in entries
      {
        HitIsEntry(tb, slots, n, p, x);
      }
    }
  }

  method EmitDefaults(g: Grammar, num: seq<nat>, sorted: seq<nat>, aps: seq<seq<Action>>,
        dflt: seq<int>) returns (yyDefault: seq<int>)
    requires Numbering(|aps|, num, sorted) && |dflt| == |aps|
    requires forall i | 0 <= i < |aps| :: dflt[i] == DefaultOf(g, num, aps[i])
    ensures |yyDefault| == |aps|
    ensures forall i: nat | i < |aps| :: num[i] < |aps| && yyDefault[num[i]] == DefaultOf(g, num, aps[i])
  {
    yyDefault := [];
    for s := 0 to |aps|
      invariant |yyDefault| == s
      invariant forall k | 0 <= k < s :: yyDefault[k] == dflt[sorted[k]]
    {
      yyDefault := yyDefault + [dflt[sorted[s]]];
    }
  }

  method EmitRules(g: Grammar) returns (info: seq<RuleInfo>)
    ensures |info| == |g.rules|
    ensures forall r | 0 <= r < |g.rules| :: info[r] == RuleInfo(g.rules[r].lhs, |g.rules[r].rhs| % 256)
  {
    info := [];
    for r := 0 to |g.rules|
      invariant |info| == r
      invariant forall k | 0 <= k < r :: info[k] == RuleInfo(g.rules[k].lhs, |g.rules[k].rhs| % 256)
    {
      info := info + [RuleInfo(g.rules[r].lhs, |g.rules[r].rhs| % 256)];
    }
  }

  /** The length of a rule is kept in an unsigned char. */
  lemma RuleLengthKeptIff(g: Grammar, num: seq<nat>, aps: seq<seq<Action>>, tb: Tables, r: nat)
    requires TablesFor(g, num, aps, tb) && r < |g.rules|
    ensures tb.ruleInfo[r].nrhs == |g.rules[r].rhs| <==> |g.rules[r].rhs| < 256
  {
    hide RowOk;
    assert tb.ruleInfo[r] == RuleInfo(g.rules[r].lhs, |g.rules[r].rhs| % 256);
  }

  /** The table part of the report, whatever order equal sets come out of the sort in. */
  method ReportTable(g: Grammar, num: seq<nat>, sorted: seq<nat>, aps: seq<seq<Action>>, dflt: seq<int>,
        ax: seq<AxSet>, depth: nat) returns (tb: Tables)
    requires Numbering(|aps|, num, sorted) && IsAx(g, num, aps, ax)
    requires forall i | 0 <= i < |aps| :: UniqueLive(aps[i])
    requires |dflt| == |aps| && forall i | 0 <= i < |aps| :: dflt[i] == DefaultOf(g, num, aps[i])
    ensures TablesFor(g, num, aps, tb) && tb.depth == depth
  {
    hide UniqueLive, IsAx, RowOk, TablesFor, AllHold, Placed, Entries, Numbering, DefaultOf;
    var p, ofst, mnTkn, mnNt := PackSets(g, num, aps, ax);
    var slots, n := p.aAction, p.nAction;
    ghost var sets := p.sets;
    var actions, lookaheads := EmitSlots(slots, n, g.nsymbol, |aps| + |g.rules| + 2);
    var shiftRows := EmitRows(sorted, ofst, true, mnTkn);
    var reduceRows := EmitRows(sorted, ofst, false, mnNt);
    var yyDefault := EmitDefaults(g, num, sorted, aps, dflt);
    var info := EmitRules(g);
    var hasFallback := exists t :: 0 <= t < |g.fallback| && g.fallback[t] != 0;
    tb := Tables(|aps|, |g.rules|, g.nsymbol, actions, lookaheads, shiftRows, mnTkn - 1, reduceRows, mnNt - 1,
                 yyDefault, if hasFallback then g.fallback else [], g.wildcard, info, g.errsym, depth);
    SortedLength(|aps|, num, sorted);
    AllRowsOk(g, num, sorted, aps, tb, slots, n, sets, ofst, shiftRows, mnTkn, true);
    AllRowsOk(g, num, sorted, aps, tb, slots, n, sets, ofst, reduceRows, mnNt, false);
    TablesComplete(g, num, aps, tb);
  }

  lemma SortedLength(n: nat, num: seq<nat>, sorted: seq<nat>)
    requires Numbering(n, num, sorted)
    ensures |num| == |sorted| == n
  {
  }

  lemma TablesComplete(g: Grammar, num: seq<nat>, aps: seq<seq<Action>>, tb: Tables)
    requires tb.nstate == |aps| && tb.nrule == |g.rules| && tb.nsymbol == g.nsymbol && |num| == |aps|
    requires |tb.yyLookahead| == |tb.yyAction| && |tb.yyDefault| == |aps| && |tb.ruleInfo| == |g.rules|
    requires |tb.shiftOfst| <= |aps| && |tb.reduceOfst| <= |aps|
    requires forall i: nat | i < |aps| ::
      num[i] < |aps| && RowOk(tb, tb.shiftOfst, tb.shiftUseDflt, num[i], Entries(g, num, aps[i], true))
    requires forall i: nat | i < |aps| ::
      num[i] < |aps| && RowOk(tb, tb.reduceOfst, tb.reduceUseDflt, num[i], Entries(g, num, aps[i], false))
    requires forall i: nat | i < |aps| :: num[i] < |aps| && tb.yyDefault[num[i]] == DefaultOf(g, num, aps[i])
    requires tb.fallback == (if exists t :: 0 <= t < |g.fallback| && g.fallback[t] != 0 then g.fallback else [])
    requires tb.wildcard == g.wildcard && tb.errsym == g.errsym
    requires forall r | 0 <= r < |g.rules| :: tb.ruleInfo[r] == RuleInfo(g.rules[r].lhs, |g.rules[r].rhs| % 256)
    ensures TablesFor(g, num, aps, tb)
  {
    hide RowOk, Entries, DefaultOf;
  }

  lemma AllRowsOk(g: Grammar, num: seq<nat>, sorted: seq<nat>, aps: seq<seq<Action>>, tb: Tables, slots: seq<Slot>,
        n: nat, sets: seq<Packed>, ofst: Offsets, rows: seq<int>, mn: int, b: bool)
    requires Numbering(|aps|, num, sorted) && tb.nsymbol == g.nsymbol
    requires |tb.yyAction| == |tb.yyLookahead| == n <= |slots| && AllHold(slots, n, sets)
    requires forall k | 0 <= k < n :: slots[k].action >= 0 ==> tb.yyAction[k] == slots[k].action
    requires forall k | 0 <= k < n ::
      tb.yyLookahead[k] == if slots[k].lookahead < 0 then tb.nsymbol else slots[k].lookahead
    requires forall i: nat :: (i, b) in ofst <==> i < |aps| && Entries(g, num, aps[i], b) != []
    requires forall i: nat | (i, b) in ofst :: Placed(g, num, aps, sets, ofst, i, b) && mn <= ofst[(i, b)]
    requires forall s | 0 <= s < |sorted| && (sorted[s], b) in ofst :: s < |rows| && rows[s] == ofst[(sorted[s], b)]
    requires |rows| <= |sorted| && forall s | 0 <= s < |rows| && (sorted[s], b) !in ofst :: rows[s] == mn - 1
    ensures forall i: nat | i < |aps| :: num[i] < |aps| && RowOk(tb, rows, mn - 1, num[i], Entries(g, num, aps[i], b))
  {
    hide RowOk, AllHold, Placed;
    forall i: nat | i < |aps| ensures num[i] < |aps| && RowOk(tb, rows, mn - 1, num[i], Entries(g, num, aps[i], b)) {
      assert sorted[num[i]] == i;
      RowIsOk(g, num, sorted, aps, tb, slots, n, sets, ofst, rows, mn, i, b);
    }
  }
}
