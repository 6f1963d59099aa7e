/** The whole generator, from a grammar to the tables of its parser. */
module Generate {
  import opened Grammars
  import opened FirstSets
  import opened FirstMeaning
  import opened Automata
  import opened StateBuilder
  import opened ItemSort
  import opened FollowSets
  import opened MergeSort
  import opened Contests
  import opened Actions
  import opened Compression
  import opened ParserTables
  import opened Report
  import opened Emit
  import opened Machines
  import opened Completeness
  import opened Lookaheads
  import opened Products

  // ----- Sizes -----

  /** No list of the generator reaches the 2^30 elements that its list sort cannot take. */
  ghost predicate Small(g: Grammar) {
    |AllItems(g)| * (Widest(g.rules) + g.nterminal) + 1 < 0x4000_0000
  }

  lemma SmallHasFewItems(g: Grammar)
    requires Small(g)
    ensures FewItems(g)
  {
    hide Widest, AllItems;
    var n, w := |AllItems(g)|, Widest(g.rules) + g.nterminal;
    assert Widest(g.rules) >= 1;
    MulMono(1, w, n);
    assert 1 * n <= w * n == n * w;
  }

  lemma ListBounds(g: Grammar, lam: set<nat>, first: First, a: Automaton, i: nat)
    requires Small(g) && Partial(g, lam, first, a) && FewShifts(g, a) && i < |a.states|
    ensures |a.states[i].ap| + |a.states[i].items| * g.nterminal + 1 < 0x4000_0000
  {
    hide Widest, AllItems, IsClosure, Automata.Placed, ConfigOk, ShiftOk, KeysOk;
    assert StateOk(g, a.states[i]);
    var k, n, w, t := |a.states[i].items|, |AllItems(g)|, Widest(g.rules), g.nterminal;
    DistinctCount(a.states[i].items);
    SubsetCount(ItemSet(a.states[i].items), AllItems(g));
    MulMono(k, n, w + t);
    assert k * (w + t) == k * w + k * t;
  }

  // ----- The library sort -----

  /** The sort of the C library: some sorted permutation; nothing is said about ties. */
  method QSort<T(!new)>(cmp: (T, T) -> int, s: seq<T>) returns (t: seq<T>)
    requires TotalPreorder(cmp)
    ensures multiset(t) == multiset(s) && Sorted(cmp, t)
  {
    t := Sort(cmp, s);
    SortIsStableSort(cmp, s);
  }

  function Key(counts: seq<Counts>, i: nat): (int, int) {
    if i < |counts| then (counts[i].nNtAct, counts[i].nTknAct) else (0, 0)
  }

  /** The state with the most nonterminal actions comes first, then the one with the most token
      actions. */
  function StateResortCompare(counts: seq<Counts>): (nat, nat) -> int {
    (a: nat, b: nat) =>
      var n: int := Key(counts, b).0 - Key(counts, a).0;
      if n == 0 then Key(counts, b).1 - Key(counts, a).1 else n
  }

  lemma SameElements<T>(s: seq<T>, t: seq<T>)
    requires multiset(s) == multiset(t)
    ensures |s| == |t| && forall x :: x in s <==> x in t
  {
    assert |multiset(s)| == |s| && |multiset(t)| == |t|;
    forall x ensures x in s <==> x in t {
      assert x in s <==> x in multiset(s);
      assert x in t <==> x in multiset(t);
    }
  }

  lemma StaysDistinct<T>(s: seq<T>, t: seq<T>)
    requires multiset(s) == multiset(t) && Distinct(s)
    ensures Distinct(t)
  {
    DistinctMultiset(s);
    DistinctMultiset(t);
  }

  /** The order of the states: state 0 stays where it is. */
  method OrderStates(counts: seq<Counts>) returns (order: seq<nat>)
    requires counts != []
    ensures |order| == |counts| && IsPermutation(order) && order[0] == 0
    ensures forall s, u | 1 <= s < u < |order| ::
      var x, y := counts[order[s]], counts[order[u]];
      x.nNtAct > y.nNtAct || (x.nNtAct == y.nNtAct && x.nTknAct >= y.nTknAct)
  {
    var rest: seq<nat> := seq(|counts| - 1, (k: nat) => k + 1);
    var cmp := StateResortCompare(counts);
    var tail := QSort(cmp, rest);
    SameElements(rest, tail);
    StaysDistinct(rest, tail);
    order := [0] + tail;
    forall s: nat | s < |order| ensures order[s] < |order| && (s > 0 ==> order[s] > 0) {
      if s > 0 {
        assert order[s] in tail;
      }
    }
    forall s: nat, u: nat | s < u < |order| ensures order[s] != order[u] {
      if s > 0 {
        assert tail[s - 1] != tail[u - 1];
      }
    }
    forall s: nat, u: nat | 1 <= s < u < |order|
      ensures var x, y := counts[order[s]], counts[order[u]];
        x.nNtAct > y.nNtAct || (x.nNtAct == y.nNtAct && x.nTknAct >= y.nTknAct)
    {
      assert !(cmp(tail[u - 1], tail[s - 1]) < 0);
    }
  }

  /** Count, sort, renumber: behind state 0 the states with fewer choices are at the end. */
  method ResortStates(g: Grammar, aps: seq<seq<Action>>, num0: seq<nat>)
    returns (counts: seq<Counts>, num: seq<nat>, sorted: seq<nat>)
    requires g.nterminal <= g.nsymbol && |num0| == |aps| > 0
    ensures Numbering(|aps|, num, sorted) && IsPermutation(sorted) && |counts| == |aps|
    ensures forall i | 0 <= i < |aps| ::
      counts[i] ==
      Counts(|Entries(g, num0, aps[i], true)|, |Entries(g, num0, aps[i], false)|, DefaultOf(g, num0, aps[i]))
    ensures forall s, u | 1 <= s < u < |aps| ::
      var x, y := counts[sorted[s]], counts[sorted[u]];
      x.nNtAct > y.nNtAct || (x.nNtAct == y.nNtAct && x.nTknAct >= y.nTknAct)
  {
    counts := CountStates(g, aps, num0);
    sorted := OrderStates(counts);
    num := Renumber(num0, sorted);
  }

  // ----- The action sets -----

  function AxSetCompare(p: AxSet, q: AxSet): int {
    q.nAction - p.nAction
  }

  function AxOf(counts: seq<Counts>, i: nat, isTkn: bool): AxSet
    requires i < |counts|
  {
    AxSet(i, isTkn, if isTkn then counts[i].nTknAct else counts[i].nNtAct)
  }

  /** Two sets for every state, in the order of the state numbers, then sorted by size. */
  method BuildAx(counts: seq<Counts>, sorted: seq<nat>) returns (ax: seq<AxSet>)
    requires |sorted| == |counts| && IsPermutation(sorted)
    ensures forall k | 0 <= k < |ax| :: ax[k].stp < |counts| && ax[k] == AxOf(counts, ax[k].stp, ax[k].isTkn)
    ensures forall k, l | 0 <= k < l < |ax| :: ax[k].stp != ax[l].stp || ax[k].isTkn != ax[l].isTkn
    ensures forall k, l | 0 <= k < l < |ax| :: ax[k].nAction >= ax[l].nAction
    ensures forall i: nat, b: bool | i < |counts| :: AxListed(ax, i, b)
  {
    var all: seq<AxSet> := [];
    for s := 0 to |sorted|
      invariant |all| == 2 * s
      invariant forall k | 0 <= k < 2 * s :: all[k] == AxOf(counts, sorted[k / 2], k % 2 == 0)
    {
      all := all + [AxOf(counts, sorted[s], true), AxOf(counts, sorted[s], false)];
    }
    DistinctAx(counts, sorted, all);
    ax := QSort(AxSetCompare, all);
    SameElements(all, ax);
    StaysDistinct(all, ax);
    forall k | 0 <= k < |ax| ensures ax[k].stp < |counts| && ax[k] == AxOf(counts, ax[k].stp, ax[k].isTkn) {
      assert ax[k] in all;
    }
    forall k, l | 0 <= k < l < |ax|
      ensures ax[k].nAction >= ax[l].nAction && (ax[k].stp != ax[l].stp || ax[k].isTkn != ax[l].isTkn)
    {
      assert !(AxSetCompare(ax[l], ax[k]) < 0);
    }
    PermutationCovers(sorted);
    forall i: nat, b: bool | i < |counts| ensures AxListed(ax, i, b) {
      assert i in sorted;
      var s :| 0 <= s < |sorted| && sorted[s] == i;
      var k := if b then 2 * s else 2 * s + 1;
      assert all[k] in ax;
      var l: nat :| l < |ax| && ax[l] == all[k];
      assert AxHas(ax, i, b, l);
    }
  }

  lemma DistinctAx(counts: seq<Counts>, sorted: seq<nat>, all: seq<AxSet>)
    requires |sorted| == |counts| && IsPermutation(sorted) && |all| == 2 * |sorted|
    requires forall k | 0 <= k < |all| :: all[k] == AxOf(counts, sorted[k / 2], k % 2 == 0)
    ensures Distinct(all)
  {
    forall k, l | 0 <= k < l < |all| ensures all[k] != all[l] {
      if k / 2 != l / 2 {
        assert sorted[k / 2] != sorted[l / 2];
      }
    }
  }

  // ----- Counts do not depend on the numbering -----

  lemma {:induction false} SameCounts(g: Grammar, num0: seq<nat>, num: seq<nat>, ap: seq<Action>, isTkn: bool)
    ensures |Entries(g, num0, ap, isTkn)| == |Entries(g, num, ap, isTkn)|
  {
    if ap != [] {
      SameCounts(g, num0, num, ap[..|ap| - 1], isTkn);
    }
  }

  lemma {:induction false} SameDefault(g: Grammar, num0: seq<nat>, num: seq<nat>, ap: seq<Action>)
    requires |num0| == |num| && forall act | act in ap && Live(act) && act.sp >= g.nsymbol :: act.kind == Reduce
    ensures DefaultOf(g, num0, ap) == DefaultOf(g, num, ap)
  {
    if ap != [] {
      assert ap[|ap| - 1] in ap;
      SameDefault(g, num0, num, ap[..|ap| - 1]);
    }
  }

  // ----- The whole generator -----

  lemma Compressible(g: Grammar, lam: set<nat>, first: First, a: Automaton, f: Follow, aps: seq<seq<Action>>)
    requires WfGrammar(g) && Collection(g, lam, first, a) && ActionTable(g, a, f, aps)
    ensures forall i | 0 <= i < |aps| :: UniqueLive(aps[i])
    ensures forall i, act | 0 <= i < |aps| && act in aps[i] && Live(act) :: act.sp != g.nsymbol
  {
    hide Collection, Partial, IsRaw, UniqueLive;
    CollectionIsPartial(g, lam, first, a);
    forall i, act | 0 <= i < |aps| && act in aps[i] && Live(act) ensures act.sp != g.nsymbol {
      RawOnSymbol(g, lam, first, a, f, i, act);
    }
  }

  lemma RawOnSymbol(g: Grammar, lam: set<nat>, first: First, a: Automaton, f: Follow, i: nat, act: Action)
    requires WfGrammar(g) && Partial(g, lam, first, a) && i < |a.states| && IsRaw(g, a, f, i, act)
    ensures act.sp < g.nsymbol
  {
    hide Partial;
    if act in a.states[i].ap {
      ShiftIsSane(g, lam, first, a, i, act);
    }
  }

  lemma SaneLists(g: Grammar, a: Automaton, aps: seq<seq<Action>>)
    requires Sane(g, a, aps) && g.start < g.nsymbol
    ensures forall i | 0 <= i < |aps| :: UniqueLive(aps[i])
    ensures forall i, act | 0 <= i < |aps| && act in aps[i] && Live(act) && act.sp >= g.nsymbol :: act.kind == Reduce
  {
    hide UniqueLive, Goes, HasGoto;
    forall i | 0 <= i < |aps|
      ensures UniqueLive(aps[i])
      ensures forall act | act in aps[i] && Live(act) && act.sp >= g.nsymbol :: act.kind == Reduce
    {
      assert ListSane(g, a, i, aps[i]);
    }
  }

  /** The tables for given action lists: sort the states, renumber them, pack and emit. */
  method Emission(g: Grammar, ghost a: Automaton, aps: seq<seq<Action>>, depth: nat) returns (tb: Tables,
        num: seq<nat>, sorted: seq<nat>)
    requires WfGrammar(g) && Sane(g, a, aps) && aps != []
    ensures Numbering(|aps|, num, sorted) && TablesFor(g, num, aps, tb) && tb.depth == depth
  {
    hide Sane, UniqueLive, WfGrammar, TablesFor;
    GrammarSizes(g);
    SaneLists(g, a, aps);
    var num0: seq<nat> := seq(|aps|, (i: nat) => i);
    var counts;
    counts, num, sorted := ResortStates(g, aps, num0);
    var ax := BuildAx(counts, sorted);
    var dflt := seq(|aps|, i requires 0 <= i < |aps| => counts[i].iDflt);
    forall i | 0 <= i < |aps| ensures dflt[i] == DefaultOf(g, num, aps[i]) {
      SameDefault(g, num0, num, aps[i]);
    }
    forall k | 0 <= k < |ax| ensures ax[k].nAction == |Entries(g, num, aps[ax[k].stp], ax[k].isTkn)| {
      SameCounts(g, num0, num, aps[ax[k].stp], ax[k].isTkn);
    }
    tb := ReportTable(g, num, sorted, aps, dflt, ax, depth);
  }

  lemma GrammarSizes(g: Grammar)
    requires WfGrammar(g)
    ensures 0 < g.nterminal <= g.start < g.nsymbol
  {
  }

  /** The generator as a whole.  Its tables make a safe and sound parser, whatever conflicts the
      grammar has; `compress` tells whether the action lists are compressed. */
  method Generate(g: Grammar, tie: Action -> int, compress: bool, depth: nat)
    returns (tb: Tables, nconflict: nat, ghost m: Machine, ghost q: Sets, ghost aps0: seq<seq<Action>>)
    requires WfGrammar(g) && Small(g) && ShortRules(g) && FallbackAcyclic(g) && depth > 0
    ensures m.g == g && m.tb == tb && tb.depth == depth && Generated(m, q, aps0, compress)
    ensures nconflict == TotalConflicts(aps0)
    ensures NoPrecedences(g) && nconflict == 0 ==> ConflictFree(g, m.a, q.f)
    ensures NoSubstitutes(g) && EmptyRuleClosed(g) && ConflictFree(g, m.a, q.f) ==> Setting(m, q)
  {
    hide WfGrammar, Small, ShortRules, FallbackAcyclic, FirstSetsOf, Collection, Partial, FewShifts, Flows, LeastFollow,
         ExactLinks, AllCfgs, Sane, Compressed, TablesFor, Usable, EmptyRuleClosed, ConflictFree, NoSubstitutes,
         UniqueLive, NoPrecedences;
    SmallHasFewItems(g);
    var lam, first := FindFirstSets(g);
    var lemon := new Lemon(g, lam, first);
    lemon.FindStates();
    var a := lemon.a;
    CollectionIsPartial(g, lam, first, a);
    var fplp := FindLinks(g, lam, first, a);
    FollowPreconditions(g, lam, first, a, fplp);
    var f := FindFollowSets(g.nterminal, a, fplp);
    LeastFollowFlows(g, lam, first, a, fplp, f);
    assert ExactFollow(g, lam, a, f);
    FollowKeys(a, fplp, f);
    forall i | 0 <= i < |a.states| ensures |a.states[i].ap| + |a.states[i].items| * g.nterminal + 1 < 0x4000_0000 {
      ListBounds(g, lam, first, a, i);
    }
    var aps;
    aps, nconflict := FindActions(g, lam, first, a, f, tie);
    aps0 := aps;
    Compressible(g, lam, first, a, f, aps);
    if compress {
      aps := CompressTables(g, aps, tie);
      TableIsSane(g, lam, first, a, f, aps0, aps);
    } else {
      UncompressedIsSane(g, lam, first, a, f, aps);
    }
    var num, sorted;
    tb, num, sorted := Emission(g, a, aps, depth);
    m, q := Machine(g, a, aps, num, sorted, tb), Sets(lam, first, f);
    PartialIsLr0(g, lam, first, a);
    IsUsable(m);
    if NoSubstitutes(g) && EmptyRuleClosed(g) && ConflictFree(g, a, f) {
      ConflictFreeIsFaithful(m, lam, first, f, aps0);
      assert Setting(m, q);
    }
  }

  lemma FollowPreconditions(g: Grammar, lam: set<nat>, first: First, a: Automaton, fplp: Links)
    requires WfGrammar(g) && FirstSetsOf(g, lam, first) && Collection(g, lam, first, a) && ExactLinks(g, lam, a, fplp)
    ensures AllCfgs(a, a.fws) && FollowBounded(g.nterminal, a.fws)
    ensures AllCfgs(a, fplp) && forall c, d | c in fplp && d in fplp[c] :: IsCfg(a, d)
  {
    hide WfGrammar, Collection, Partial;
    CollectionIsPartial(g, lam, first, a);
    SeedsBounded(g, lam, first, a);
    ExactLinksAreCfgs(g, lam, first, a, fplp);
  }

  lemma FollowKeys(a: Automaton, fplp: Links, f: Follow)
    requires LeastFollow(a, fplp, f)
    ensures AllCfgs(a, f)
  {
  }

  lemma UncompressedIsSane(g: Grammar, lam: set<nat>, first: First, a: Automaton, f: Follow, aps: seq<seq<Action>>)
    requires WfGrammar(g) && Collection(g, lam, first, a) && ActionTable(g, a, f, aps)
    ensures Sane(g, a, aps)
  {
    hide Collection, ActionsFor, ListSane;
    forall i | 0 <= i < |aps| ensures ListSane(g, a, i, aps[i]) {
      ActionsForIsSane(g, lam, first, a, f, i, aps[i]);
    }
  }

  lemma IsUsable(m: Machine)
    requires WfGrammar(m.g) && FallbackAcyclic(m.g) && ShortRules(m.g)
    requires Lr0(m.g, m.a) && Sane(m.g, m.a, m.aps) && Numbering(|m.aps|, m.num, m.sorted)
    requires TablesFor(m.g, m.num, m.aps, m.tb) && m.tb.depth > 0
    ensures Usable(m)
  {
  }
}
