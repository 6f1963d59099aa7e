/** The parser actions of every state: shifts, reduces and the accept, sorted, and what is left of
    them after resolution. */
module Actions {
  import opened Grammars
  import opened FirstSets
  import opened Automata
  import opened FollowSets
  import opened MergeSort
  import opened Contests

  function Rank(k: ActionKind): nat {
    match k
    case Shift => 0
    case Accept => 1
    case Reduce => 2
    case ErrorAction => 3
    case Conflict => 4
    case ShResolved => 5
    case RdResolved => 6
    case NotUsed => 7
  }

  /** The last key of the comparison is the rule number of a reduce; for everything else it is
      whatever `tie` says, since the source then reads a field that does not exist. */
  function TieKey(tie: Action -> int, x: Action): int {
    if x.kind == Reduce then x.target else tie(x)
  }

  function ActionCmp(tie: Action -> int, x: Action, y: Action): int {
    var rc := x.sp - y.sp;
    if rc != 0 then rc
    else
      var rk := Rank(x.kind) - Rank(y.kind);
      if rk != 0 then rk else TieKey(tie, x) - TieKey(tie, y)
  }

  function Cmp(tie: Action -> int): (Action, Action) -> int {
    (x: Action, y: Action) => ActionCmp(tie, x, y)
  }

  lemma ActionCmpIsTotal(tie: Action -> int)
    ensures TotalPreorder(Cmp(tie))
  {
  }

  // ----- The actions of a state before resolution -----

  ghost predicate IsReduce(g: Grammar, a: Automaton, f: Follow, i: nat, act: Action)
    requires i < |a.states|
  {
    && act.kind == Reduce && act.target < |g.rules| && act.sp < g.nterminal
    && var it := Item(act.target, |g.rules[act.target].rhs|);
       it in a.states[i].items && Cfg(i, it) in f && act.sp in f[Cfg(i, it)]
  }

  /** The actions that state `i` has by construction: its shifts, a reduce for every terminal in
      the follow set of a complete configuration, and in state 0 the accept. */
  ghost predicate IsRaw(g: Grammar, a: Automaton, f: Follow, i: nat, act: Action) {
    && i < |a.states|
    && (act in a.states[i].ap || IsReduce(g, a, f, i, act) || (i == 0 && act == Action(g.start, Accept, 0)))
  }

  ghost predicate ReducesBy(g: Grammar, f: Follow, i: nat, items: seq<Item>, act: Action) {
    && act.kind == Reduce && act.sp < g.nterminal
    && exists it ::
       it in items && IsComplete(g, it) && act.target == it.rule && Cfg(i, it) in f && act.sp in f[Cfg(i, it)]
  }

  /** No reduce is listed twice. */
  ghost predicate ReducesOnce(ap: seq<Action>) {
    forall act | act in ap && act.kind == Reduce :: multiset(ap)[act] == 1
  }

  lemma NewReduce(ap: seq<Action>, act: Action)
    requires ReducesOnce(ap) && act !in ap
    ensures ReducesOnce([act] + ap)
  {
    assert multiset([act] + ap) == multiset{act} + multiset(ap);
    assert act !in multiset(ap);
  }

  /** A reduce by rule `r` for every terminal of a follow set. */
  method AddReducesBy(n: nat, fws: set<nat>, r: nat, ap0: seq<Action>) returns (ap: seq<Action>)
    requires ReducesOnce(ap0) && forall act | act in ap0 && act.kind == Reduce :: act.target != r
    ensures |ap| <= |ap0| + n && ReducesOnce(ap)
    ensures forall act ::
      act in ap <==> act in ap0 || (act.kind == Reduce && act.sp < n && act.target == r && act.sp in fws)
  {
    hide ReducesOnce;
    ap := ap0;
    for j := 0 to n
      invariant |ap| <= |ap0| + j && ReducesOnce(ap)
      invariant forall act :: act in ap <==>
          act in ap0 || (act.kind == Reduce && act.sp < j && act.target == r && act.sp in fws)
    {
      if j in fws {
        NewReduce(ap, Action(j, Reduce, r));
        ap := [Action(j, Reduce, r)] + ap;
      }
    }
  }

  lemma ReducesByNext(g: Grammar, f: Follow, i: nat, items: seq<Item>, k: nat, act: Action)
    requires k < |items| && Cfg(i, items[k]) in f
    ensures ReducesBy(g, f, i, items[..k + 1], act) <==>
      || ReducesBy(g, f, i, items[..k], act)
      || (act.kind == Reduce && act.sp < g.nterminal && IsComplete(g, items[k]) && act.target == items[k].rule &&
          act.sp in f[Cfg(i, items[k])])
  {
    assert items[..k + 1] == items[..k] + [items[k]];
  }

  method AddReduces(g: Grammar, f: Follow, i: nat, items: seq<Item>, ap0: seq<Action>) returns (ap: seq<Action>)
    requires Distinct(items) && forall it | it in items :: WfItem(g, it) && Cfg(i, it) in f
    requires forall act | act in ap0 :: act.kind == Shift
    ensures |ap| <= |ap0| + |items| * g.nterminal && ReducesOnce(ap)
    ensures forall act :: act in ap <==> (act in ap0 || ReducesBy(g, f, i, items, act))
  {
    hide ReducesBy, ReducesOnce, Distinct;
    ap := ap0;
    NothingReduced(g, f, i);
    ShiftsOnly(ap0);
    for k := 0 to |items|
      invariant |ap| <= |ap0| + k * g.nterminal && ReducesOnce(ap)
      invariant forall act :: act in ap <==> (act in ap0 || ReducesBy(g, f, i, items[..k], act))
    {
      var cfp := items[k];
      assert cfp in items && WfItem(g, cfp);
      forall act { ReducesByNext(g, f, i, items, k, act); }
      if |g.rules[cfp.rule].rhs| == cfp.dot {
        forall act | act in ap && act.kind == Reduce ensures act.target != cfp.rule {
          ReducedOnce(g, f, i, items, k, act);
        }
        ap := AddReducesBy(g.nterminal, f[Cfg(i, cfp)], cfp.rule, ap);
      }
    }
    assert items[..|items|] == items;
  }

  lemma ShiftsOnly(ap: seq<Action>)
    requires forall act | act in ap :: act.kind == Shift
    ensures ReducesOnce(ap)
  {
  }

  /** Complete items in front of a complete item are of other rules. */
  lemma ReducedOnce(g: Grammar, f: Follow, i: nat, items: seq<Item>, k: nat, act: Action)
    requires Distinct(items) && k < |items| && IsComplete(g, items[k]) && ReducesBy(g, f, i, items[..k], act)
    ensures act.target != items[k].rule
  {
    var it :| it in items[..k] && IsComplete(g, it) && act.target == it.rule;
    var j :| 0 <= j < k && items[j] == it;
  }

  lemma NothingReduced(g: Grammar, f: Follow, i: nat)
    ensures forall act :: !ReducesBy(g, f, i, [], act)
  {
  }

  /** The live actions of state `i` after resolution: all of them are raw actions, no symbol has
      two, and every symbol that has a raw action has one. */
  ghost predicate ActionsFor(g: Grammar, a: Automaton, f: Follow, i: nat, ap: seq<Action>) {
    && (forall act | act in ap && Live(act) :: IsRaw(g, a, f, i, act))
    && (forall act | IsRaw(g, a, f, i, act) :: SomeLive(ap, act.sp))
    && UniqueLive(ap)
  }

  /** The conflicts of state `i` are decided by the contests between its actions on each symbol,
      shifts first and reduces by rule number. */
  ghost predicate Contested(g: Grammar, a: Automaton, f: Follow, i: nat, ap: seq<Action>) {
    exists s0 :: IsRawList(g, a, f, i, s0) && Resolvable(g, s0) && InOrder(s0) && Contest(g, s0, ap)
  }

  ghost predicate IsRawList(g: Grammar, a: Automaton, f: Follow, i: nat, s0: seq<Action>) {
    forall act :: act in s0 <==> IsRaw(g, a, f, i, act)
  }

  ghost predicate ActionTable(g: Grammar, a: Automaton, f: Follow, aps: seq<seq<Action>>) {
    && |aps| == |a.states|
    && forall i | 0 <= i < |aps| :: ActionsFor(g, a, f, i, aps[i]) && Contested(g, a, f, i, aps[i])
  }

  /** The action of state `i` with the highest precedence on its symbol. */
  ghost predicate Winner(g: Grammar, a: Automaton, f: Follow, i: nat, act: Action) {
    && IsRaw(g, a, f, i, act) && act.kind in {Shift, Reduce}
    && forall x | IsRaw(g, a, f, i, x) && x.sp == act.sp && x != act :: Weaker(g, x, act)
  }

  /** Where one action has the highest precedence it is the one that survives. */
  ghost predicate WinnersKept(g: Grammar, a: Automaton, f: Follow, i: nat, ap: seq<Action>) {
    forall act | Winner(g, a, f, i, act) :: act in ap
  }

  lemma WinnersLive(g: Grammar, a: Automaton, f: Follow, i: nat, s0: seq<Action>, s: seq<Action>)
    requires IsRawList(g, a, f, i, s0) && Resolvable(g, s0) && Contest(g, s0, s)
    ensures WinnersKept(g, a, f, i, s)
  {
    hide IsRaw, Weaker, Resolvable, Contest;
    forall act | Winner(g, a, f, i, act) ensures act in s {
      StrongestLives(g, s0, s, act);
    }
  }

  // ----- Two actions on a symbol -----

  /** State `i` has the actions `x` and `y` on their symbol and no other. */
  ghost predicate OnlyTwo(g: Grammar, a: Automaton, f: Follow, i: nat, x: Action, y: Action) {
    && x.sp == y.sp && IsRaw(g, a, f, i, x) && IsRaw(g, a, f, i, y)
    && forall z | IsRaw(g, a, f, i, z) && z.sp == x.sp :: z == x || z == y
  }

  /** A shift against a reduce: the declared precedence of the token and that of the rule's
      precedence symbol decide, and the associativity of the token where they are equal.
      Everything else is a counted conflict, which the shift survives. */
  lemma ShiftAgainstReduce(g: Grammar, a: Automaton, f: Follow, i: nat, ap: seq<Action>, t: nat, j: nat, r: nat)
    requires WfGrammar(g) && Contested(g, a, f, i, ap) && t < g.nterminal && r < |g.rules|
    requires OnlyTwo(g, a, f, i, Action(t, Shift, j), Action(t, Reduce, r))
    ensures var p, k := g.prec[t], g.rules[r].precsym;
      if k.Some? && 0 <= g.prec[k.value] < p then Action(t, Shift, j) in ap && Action(t, RdResolved, r) in ap
      else if k.Some? && 0 <= p < g.prec[k.value] then Action(t, ShResolved, j) in ap && Action(t, Reduce, r) in ap
      else if k.Some? && 0 <= p == g.prec[k.value] && g.assoc[t] == RightAssoc then
        Action(t, Shift, j) in ap && Action(t, RdResolved, r) in ap
      else if k.Some? && 0 <= p == g.prec[k.value] && g.assoc[t] == LeftAssoc then
        Action(t, ShResolved, j) in ap && Action(t, Reduce, r) in ap
      else Action(t, Shift, j) in ap && Action(t, Conflict, r) in ap
  {
    hide IsRaw, Contest, Resolvable, InOrder;
    assert WfRule(g, g.rules[r]);
    var s0 :| IsRawList(g, a, f, i, s0) && Resolvable(g, s0) && InOrder(s0) && Contest(g, s0, ap);
    Duel(g, s0, ap, Action(t, Shift, j), Action(t, Reduce, r));
  }

  /** Two reduces: the higher declared precedence wins; without a decision by precedence it is a
      counted conflict, which the rule declared first survives. */
  lemma ReduceAgainstReduce(g: Grammar, a: Automaton, f: Follow, i: nat, ap: seq<Action>, t: nat, q: nat, r: nat)
    requires WfGrammar(g) && Contested(g, a, f, i, ap) && q < r < |g.rules|
    requires OnlyTwo(g, a, f, i, Action(t, Reduce, q), Action(t, Reduce, r))
    ensures var k, l := g.rules[q].precsym, g.rules[r].precsym;
      if k.Some? && l.Some? && 0 <= g.prec[k.value] < g.prec[l.value] then
        Action(t, RdResolved, q) in ap && Action(t, Reduce, r) in ap
      else if k.Some? && l.Some? && 0 <= g.prec[l.value] < g.prec[k.value] then
        Action(t, Reduce, q) in ap && Action(t, RdResolved, r) in ap
      else Action(t, Reduce, q) in ap && Action(t, Conflict, r) in ap
  {
    hide IsRaw, Contest, Resolvable, InOrder;
    assert WfRule(g, g.rules[q]) && WfRule(g, g.rules[r]);
    var s0 :| IsRawList(g, a, f, i, s0) && Resolvable(g, s0) && InOrder(s0) && Contest(g, s0, ap);
    Duel(g, s0, ap, Action(t, Reduce, q), Action(t, Reduce, r));
  }

  // ----- No conflicts -----

  /** No symbol of state `i` has two different actions. */
  ghost predicate NoConflictIn(g: Grammar, a: Automaton, f: Follow, i: nat) {
    forall x, y | IsRaw(g, a, f, i, x) && IsRaw(g, a, f, i, y) && x.sp == y.sp :: x == y
  }

  lemma NoneCounted(g: Grammar, a: Automaton, f: Follow, i: nat, s0: seq<Action>, s: seq<Action>)
    requires IsRawList(g, a, f, i, s0) && Resolvable(g, s0) && Contest(g, s0, s)
    ensures NoPrecedences(g) && Conflicts(s) == 0 ==> NoConflictIn(g, a, f, i)
  {
    hide IsRaw, NoPrecedences, Conflicts, Contest;
    if NoPrecedences(g) && Conflicts(s) == 0 {
      NothingCounted(g, s0, s);
      ContestIsFair(g, s0, s);
      forall x, y | IsRaw(g, a, f, i, x) && IsRaw(g, a, f, i, y) && x.sp == y.sp ensures x == y {
        assert x in s0 && y in s0;
      }
    }
  }

  /** No symbol has two different actions. */
  ghost predicate ConflictFree(g: Grammar, a: Automaton, f: Follow) {
    forall i, x, y | IsRaw(g, a, f, i, x) && IsRaw(g, a, f, i, y) && x.sp == y.sp :: x == y
  }

  /** Where no symbol has two actions every action survives. */
  lemma NoConflictKeepsAll(g: Grammar, a: Automaton, f: Follow, i: nat, ap: seq<Action>)
    requires ActionsFor(g, a, f, i, ap) && NoConflictIn(g, a, f, i)
    ensures forall act :: act in ap && Live(act) <==> IsRaw(g, a, f, i, act)
  {
    hide IsRaw;
    forall act | IsRaw(g, a, f, i, act) ensures act in ap && Live(act) {
      assert SomeLive(ap, act.sp);
      var k :| 0 <= k < |ap| && ap[k].sp == act.sp && Live(ap[k]);
      assert IsRaw(g, a, f, i, ap[k]);
    }
  }

  /** Without conflicts every action survives. */
  lemma ConflictFreeKeepsAll(g: Grammar, a: Automaton, f: Follow, i: nat, ap: seq<Action>)
    requires ActionsFor(g, a, f, i, ap) && ConflictFree(g, a, f)
    ensures forall act :: act in ap && Live(act) <==> IsRaw(g, a, f, i, act)
  {
    hide IsRaw;
    assert NoConflictIn(g, a, f, i);
    NoConflictKeepsAll(g, a, f, i, ap);
  }

  lemma TwicePresent<T>(s: seq<T>, i: int, j: int)
    requires 0 <= i < j < |s| && s[i] == s[j]
    ensures multiset(s)[s[i]] >= 2
  {
    assert s == s[..j] + s[j..];
    assert s[i] == s[..j][i];
    assert s[j] == s[j..][0];
    assert s[i] in multiset(s[..j]) && s[i] in multiset(s[j..]);
  }

  lemma RawIsLive(g: Grammar, lam: set<nat>, first: First, a: Automaton, f: Follow, i: nat, act: Action)
    requires WfGrammar(g) && Partial(g, lam, first, a) && IsRaw(g, a, f, i, act)
    ensures Live(act) && act.kind != ErrorAction
    ensures act.kind == Accept ==> act == Action(g.start, Accept, 0)
    ensures act.sp == g.start ==> act.kind == Accept
  {
    hide StateOk, Placed, ConfigOk, KeysOk;
    if act in a.states[i].ap {
      assert ShiftOk(g, a, i, act);
      var x :| Spells(x, act.sp) && Leads(g, a, i, x, act.target);
      var it :| it in a.states[i].items && Next(g, it) == Some(x);
      assert WfRule(g, g.rules[it.rule]) && WfSymbol(g, x);
      assert x != Nonterminal(g.start);
    }
  }

  lemma SortedIsResolvable(g: Grammar, lam: set<nat>, first: First, a: Automaton, f: Follow, tie: Action -> int,
        i: nat, raw: seq<Action>, s: seq<Action>)
    requires WfGrammar(g) && Partial(g, lam, first, a)
    requires forall act | act in raw :: IsRaw(g, a, f, i, act)
    requires multiset(raw)[Action(g.start, Accept, 0)] <= 1 && ReducesOnce(raw)
    requires StableSortOf(Cmp(tie), s, raw)
    ensures Resolvable(g, s) && InOrder(s)
  {
    hide Partial, IsRaw, ReducesOnce, Live, MayMeet, Precedes, ActionCmp;
    forall act | act in s ensures act in raw && Live(act) {
      assert act in multiset(s);
      assert act in raw;
      RawIsLive(g, lam, first, a, f, i, act);
    }
    forall p, q | 0 <= p < q < |s| ensures s[p].sp < s[q].sp || (Precedes(s[p], s[q]) && MayMeet(g, s[p], s[q])) {
      assert !(Cmp(tie)(s[q], s[p]) < 0);
      assert s[p] in s && s[q] in s;
      RawIsLive(g, lam, first, a, f, i, s[p]);
      RawIsLive(g, lam, first, a, f, i, s[q]);
      NotTwice(s, raw, p, q, Action(g.start, Accept, 0));
      InOrderPair(g, tie, s[p], s[q]);
    }
    SpOrder(s);
  }

  lemma SpOrder(s: seq<Action>)
    requires InOrder(s)
    ensures forall i, j :: 0 <= i < j < |s| ==> s[i].sp <= s[j].sp
  {
  }

  lemma NotTwice(s: seq<Action>, raw: seq<Action>, p: nat, q: nat, acc: Action)
    requires multiset(s) == multiset(raw) && ReducesOnce(raw) && multiset(raw)[acc] <= 1 && p < q < |s|
    ensures s[p] == s[q] ==> s[p].kind != Reduce && s[p] != acc
  {
    if s[p] == s[q] {
      TwicePresent(s, p, q);
      assert s[p] in multiset(s) && s[p] in raw;
    }
  }

  lemma InOrderPair(g: Grammar, tie: Action -> int, x: Action, y: Action)
    requires !(ActionCmp(tie, y, x) < 0) && Live(x) && Live(y) && x.kind != ErrorAction && y.kind != ErrorAction
    requires forall z | z in {x, y} :: (z.kind == Accept ==> z == Action(g.start, Accept, 0))
    requires forall z | z in {x, y} :: (z.sp == g.start ==> z.kind == Accept)
    requires x == y ==> x.kind != Reduce && x != Action(g.start, Accept, 0)
    requires forall t | 0 <= t < |g.prec| && g.prec[t] >= 0 :: t < |g.assoc| && !g.assoc[t].UnknownAssoc?
    ensures x.sp < y.sp || (Precedes(x, y) && MayMeet(g, x, y))
  {
    assert x in {x, y} && y in {x, y};
  }

  lemma SameMembers(raw: seq<Action>, s: seq<Action>)
    requires multiset(raw) == multiset(s)
    ensures forall act :: act in raw <==> act in s
  {
    forall act ensures act in raw <==> act in s {
      assert act in raw <==> act in multiset(raw);
      assert act in s <==> act in multiset(s);
    }
  }

  lemma ResolvedActions(g: Grammar, a: Automaton, f: Follow, i: nat, s0: seq<Action>, s: seq<Action>)
    requires IsRawList(g, a, f, i, s0) && ResolvedFrom(s0, s)
    ensures ActionsFor(g, a, f, i, s)
  {
    hide IsRaw;
    forall act | act in s && Live(act) ensures IsRaw(g, a, f, i, act) {
      var k :| 0 <= k < |s| && s[k] == act;
      assert s0[k] in s0;
    }
    forall act | IsRaw(g, a, f, i, act) ensures SomeLive(s, act.sp) {
      var k :| 0 <= k < |s0| && s0[k] == act;
      assert SomeLive(s, s[k].sp);
    }
  }

  lemma RawList(g: Grammar, lam: set<nat>, first: First, a: Automaton, f: Follow, i: nat,
                ap: seq<Action>, raw: seq<Action>)
    requires WfGrammar(g) && Partial(g, lam, first, a) && i < |a.states| && AllCfgs(a, f)
    requires forall act :: act in ap <==> (act in a.states[i].ap || ReducesBy(g, f, i, a.states[i].items, act))
    requires raw == if i == 0 then [Action(g.start, Accept, 0)] + ap else ap
    requires ReducesOnce(ap)
    ensures ReducesOnce(raw)
    ensures forall act :: act in raw <==> IsRaw(g, a, f, i, act)
    ensures multiset(raw)[Action(g.start, Accept, 0)] <= 1
  {
    hide StateOk, Placed, ConfigOk, KeysOk;
    forall act ensures IsReduce(g, a, f, i, act) <==> ReducesBy(g, f, i, a.states[i].items, act) {
      if IsReduce(g, a, f, i, act) {
        var it := Item(act.target, |g.rules[act.target].rhs|);
        assert it in a.states[i].items && IsComplete(g, it);
      }
      if ReducesBy(g, f, i, a.states[i].items, act) {
        var it :| it in a.states[i].items && IsComplete(g, it) && act.target == it.rule && Cfg(i, it) in f
          && act.sp in f[Cfg(i, it)];
        assert it == Item(act.target, |g.rules[act.target].rhs|);
      }
    }
    var acc := Action(g.start, Accept, 0);
    forall x | x in a.states[i].ap ensures x.kind == Shift {
      assert ShiftOk(g, a, i, x);
    }
    assert acc !in ap;
    assert multiset(ap)[acc] == 0;
    NewReduce(ap, acc);
  }

  /** Build, sort and resolve the actions of one state. */
  method StateActions(g: Grammar, ghost lam: set<nat>, ghost first: First, a: Automaton, f: Follow, tie: Action -> int,
        i: nat)
    returns (ap: seq<Action>, nconflict: nat)
    requires WfGrammar(g) && Partial(g, lam, first, a) && i < |a.states| && AllCfgs(a, f)
    requires |a.states[i].ap| + |a.states[i].items| * g.nterminal + 1 < 0x4000_0000
    ensures ActionsFor(g, a, f, i, ap) && Contested(g, a, f, i, ap) && WinnersKept(g, a, f, i, ap)
    ensures nconflict == Conflicts(ap)
    ensures NoPrecedences(g) && nconflict == 0 ==> NoConflictIn(g, a, f, i)
    ensures |ap| <= |a.states[i].ap| + |a.states[i].items| * g.nterminal + 1
  {
    hide Partial, IsRaw, ReducesBy, StableSortOf, WinnersKept, NoPrecedences, NoConflictIn, Conflicts, ReducesOnce,
         Resolvable, InOrder, Contest, ResolvedFrom;
    ItemsOfState(g, lam, first, a, f, i);
    var raw := AddReduces(g, f, i, a.states[i].items, a.states[i].ap);
    ghost var built := raw;
    if i == 0 {
      raw := [Action(g.start, Accept, 0)] + raw;
    }
    RawList(g, lam, first, a, f, i, built, raw);
    ActionCmpIsTotal(tie);
    var sorted := MSort(Cmp(tie), raw);
    SortIsStableSort(Cmp(tie), raw);
    SortedIsResolvable(g, lam, first, a, f, tie, i, raw, sorted);
    ap, nconflict := ResolveConflicts(g, sorted);
    StablePermutes(Cmp(tie), sorted, raw);
    SameMembers(raw, sorted);
    assert IsRawList(g, a, f, i, sorted);
    ContestIsFair(g, sorted, ap);
    SameLength(sorted, ap);
    ResolvedActions(g, a, f, i, sorted, ap);
    WinnersLive(g, a, f, i, sorted, ap);
    NoneCounted(g, a, f, i, sorted, ap);
  }

  lemma SameLength(s0: seq<Action>, s: seq<Action>)
    requires ResolvedFrom(s0, s)
    ensures |s| == |s0|
  {
  }

  lemma StablePermutes(cmp: (Action, Action) -> int, t: seq<Action>, s: seq<Action>)
    requires StableSortOf(cmp, t, s)
    ensures multiset(t) == multiset(s) && |t| == |s|
  {
    assert |multiset(t)| == |t| && |multiset(s)| == |s|;
  }

  lemma ItemsOfState(g: Grammar, lam: set<nat>, first: First, a: Automaton, f: Follow, i: nat)
    requires Partial(g, lam, first, a) && i < |a.states| && AllCfgs(a, f)
    ensures Distinct(a.states[i].items)
    ensures forall it | it in a.states[i].items :: WfItem(g, it) && Cfg(i, it) in f
    ensures forall act | act in a.states[i].ap :: act.kind == Shift
  {
    forall act | act in a.states[i].ap ensures act.kind == Shift {
      assert ShiftOk(g, a, i, act);
    }
    assert StateOk(g, a.states[i]);
    forall it | it in a.states[i].items ensures Cfg(i, it) in f {
      assert IsCfg(a, Cfg(i, it));
    }
  }

  ghost function TotalConflicts(aps: seq<seq<Action>>): nat {
    if aps == [] then 0 else TotalConflicts(aps[..|aps| - 1]) + Conflicts(aps[|aps| - 1])
  }

  method FindActions(g: Grammar, ghost lam: set<nat>, ghost first: First, a: Automaton, f: Follow, tie: Action -> int)
    returns (aps: seq<seq<Action>>, nconflict: nat)
    requires WfGrammar(g) && Partial(g, lam, first, a) && AllCfgs(a, f)
    requires forall i | 0 <= i < |a.states| :: |a.states[i].ap| + |a.states[i].items| * g.nterminal + 1 < 0x4000_0000
    ensures ActionTable(g, a, f, aps)
    ensures forall i | 0 <= i < |aps| :: WinnersKept(g, a, f, i, aps[i])
    ensures forall i | 0 <= i < |aps| :: |aps[i]| <= |a.states[i].ap| + |a.states[i].items| * g.nterminal + 1
    ensures nconflict == TotalConflicts(aps)
    ensures NoPrecedences(g) && nconflict == 0 ==> ConflictFree(g, a, f)
  {
    hide Partial, ActionsFor, Contested, WinnersKept, AllCfgs, Conflicts, NoConflictIn, NoPrecedences, ConflictFree;
    aps, nconflict := [], 0;
    for i := 0 to |a.states|
      invariant |aps| == i
      invariant forall k | 0 <= k < i :: ActionsFor(g, a, f, k, aps[k]) && Contested(g, a, f, k, aps[k])
      invariant forall k | 0 <= k < i :: WinnersKept(g, a, f, k, aps[k])
      invariant forall k | 0 <= k < i :: |aps[k]| <= |a.states[k].ap| + |a.states[k].items| * g.nterminal + 1
      invariant nconflict == TotalConflicts(aps)
      invariant NoPrecedences(g) && nconflict == 0 ==> forall k | 0 <= k < i :: NoConflictIn(g, a, f, k)
    {
      var ap, n := StateActions(g, lam, first, a, f, tie, i);
      assert (aps + [ap])[..i] == aps;
      aps, nconflict := aps + [ap], nconflict + n;
    }
    NoConflictAnywhere(g, a, f);
  }

  lemma NoConflictAnywhere(g: Grammar, a: Automaton, f: Follow)
    ensures (forall i | 0 <= i < |a.states| :: NoConflictIn(g, a, f, i)) ==> ConflictFree(g, a, f)
  {
    if forall i | 0 <= i < |a.states| :: NoConflictIn(g, a, f, i) {
      forall i, x, y | IsRaw(g, a, f, i, x) && IsRaw(g, a, f, i, y) && x.sp == y.sp ensures x == y {
        assert NoConflictIn(g, a, f, i);
      }
    }
  }
}
