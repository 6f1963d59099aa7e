/** Operators of two precedences: every parser generated for them binds the stronger one first. */
module Precedences {
  import opened Grammars
  import opened FirstSets
  import opened Automata
  import opened Actions
  import opened Compression
  import opened Machines
  import opened Completeness
  import opened Lookaheads
  import opened Products
  import opened Instances

  // ----- The grammar -----

  /** %left PLUS.  %left TIMES.  s ::= e.  e ::= e PLUS e.  e ::= e TIMES e.  e ::= NUM.  PLUS, TIMES and
      NUM are terminals 1 to 3; e, error and s are nonterminals 4 to 6. */
  function OperatorGrammar(): Grammar {
    Grammar(4, 7,
            [Rule(6, [Nonterminal(4)], None), Rule(4, [Nonterminal(4), Terminal(1), Nonterminal(4)], Some(1)),
             Rule(4, [Nonterminal(4), Terminal(2), Nonterminal(4)], Some(2)), Rule(4, [Terminal(3)], None)],
            6, 5, [-1, 1, 2, -1], [UnknownAssoc, LeftAssoc, LeftAssoc, UnknownAssoc], [0, 0, 0, 0], None)
  }

  lemma OperatorIsWf()
    ensures WfGrammar(OperatorGrammar())
  {
    var g := OperatorGrammar();
    assert g.rules[0].lhs == g.start;
    assert forall r | 0 <= r < |g.rules| :: WfRule(g, g.rules[r]);
  }

  ghost function Fronts(): set<Item> {
    {Item(1, 0), Item(2, 0), Item(3, 0)}
  }

  /** An operand, with whatever is in front of it, brings in all expressions. */
  lemma OperandClosure(k: Item)
    requires Next(OperatorGrammar(), k) == Some(Nonterminal(4))
    ensures IsClosure(OperatorGrammar(), {k}, {k} + Fronts())
  {
    var g, c := OperatorGrammar(), {k} + Fronts();
    assert Closed(g, c) by {
      forall src, it | src in c && Spawns(g, src, it) ensures it in c {
        assert it.rule < 4 && g.rules[it.rule].lhs == 4;
      }
    }
    forall d: set<Item> | {k} <= d && Closed(g, d) ensures c <= d {
      assert k in d;
      assert Spawns(g, k, Item(1, 0)) && Spawns(g, k, Item(2, 0)) && Spawns(g, k, Item(3, 0));
    }
  }

  /** Items in front of operators bring in nothing. */
  lemma OperatorClosure(c: set<Item>)
    requires forall it | it in c :: Next(OperatorGrammar(), it).Some? ==> Next(OperatorGrammar(), it).value.Terminal?
    ensures IsClosure(OperatorGrammar(), c, c)
  {
  }

  // ----- The state behind  e operator e -----

  ghost predicate Operators(m: Machine, q: Sets, aps0: seq<seq<Action>>, compress: bool) {
    Generated(m, q, aps0, compress) && m.g == OperatorGrammar()
  }

  ghost function AfterFirst(): set<Item> {
    {Item(0, 1), Item(1, 1), Item(2, 1)}
  }

  ghost function AfterOperator(op: nat): set<Item> {
    {Item(op, 2)} + Fronts()
  }

  ghost function AfterSecond(op: nat): set<Item> {
    {Item(op, 3), Item(1, 1), Item(2, 1)}
  }

  /** The state behind an operand, its operator and another operand. */
  ghost predicate Behind(m: Machine, op: nat, i: nat, j: nat, k: nat) {
    && Leads(m.g, m.a, 0, Nonterminal(4), i) && Leads(m.g, m.a, i, Terminal(op), j)
    && Leads(m.g, m.a, j, Nonterminal(4), k)
  }

  lemma Kernels(op: nat)
    requires 1 <= op <= 2
    ensures var g := OperatorGrammar();
      && StartItems(g) == {Item(0, 0)}
      && GotoSet(g, {Item(0, 0)} + Fronts(), Nonterminal(4)) == AfterFirst()
      && GotoSet(g, AfterFirst(), Terminal(op)) == {Item(op, 2)}
      && GotoSet(g, AfterOperator(op), Nonterminal(4)) == AfterSecond(op)
  {
    var g := OperatorGrammar();
    assert StartItems(g) == {Item(0, 0)} by {
      assert forall r: nat | r < |g.rules| :: g.rules[r].lhs == g.start <==> r == 0;
    }
    var c := {Item(0, 0)} + Fronts();
    var d := GotoSet(g, c, Nonterminal(4));
    assert Advance(Item(0, 0)) in d && Advance(Item(1, 0)) in d && Advance(Item(2, 0)) in d;
    var e := GotoSet(g, AfterFirst(), Terminal(op));
    assert Item(op, 1) in AfterFirst() && Advance(Item(op, 1)) in e;
    var f := GotoSet(g, AfterOperator(op), Nonterminal(4));
    assert Advance(Item(op, 2)) in f && Advance(Item(1, 0)) in f && Advance(Item(2, 0)) in f;
  }

  lemma WayBehind(m: Machine, q: Sets, aps0: seq<seq<Action>>, compress: bool, op: nat)
    returns (i: nat, j: nat, k: nat)
    requires Operators(m, q, aps0, compress) && 1 <= op <= 2
    ensures HasItems(m.a, 0, {Item(0, 0)} + Fronts()) && HasItems(m.a, i, AfterFirst())
    ensures HasItems(m.a, j, AfterOperator(op)) && HasItems(m.a, k, AfterSecond(op)) && Behind(m, op, i, j, k)
  {
    hide Usable, Generated, IsRaw, IsClosure, GotoSet, Leads, HasItems;
    Kernels(op);
    OperandClosure(Item(0, 0));
    StartIs(m, q, aps0, compress, {Item(0, 0)} + Fronts());
    OperatorClosure(AfterFirst());
    i := GotoItems(m, q, aps0, compress, 0, Item(0, 0), {Item(0, 0)} + Fronts(), AfterFirst());
    OperandClosure(Item(op, 2));
    j := GotoItems(m, q, aps0, compress, i, Item(op, 1), AfterFirst(), AfterOperator(op));
    OperatorClosure(AfterSecond(op));
    k := GotoItems(m, q, aps0, compress, j, Item(op, 2), AfterOperator(op), AfterSecond(op));
  }

  lemma OperatorRest(lam: set<nat>, first: First, t: nat)
    requires 1 <= t <= 2
    ensures Next(OperatorGrammar(), Item(t, 0)) == Some(Nonterminal(4))
    ensures t in FirstOf(lam, first, Rest(OperatorGrammar(), Item(t, 0)))
  {
    assert Rest(OperatorGrammar(), Item(t, 0))[0] == Terminal(t);
  }

  /** Both operators are lookaheads of the complete rule. */
  lemma OperatorLookahead(m: Machine, q: Sets, aps0: seq<seq<Action>>, compress: bool, op: nat, t: nat,
                          i: nat, j: nat, k: nat)
    requires Operators(m, q, aps0, compress) && 1 <= op <= 2 && 1 <= t <= 2 && Behind(m, op, i, j, k)
    requires HasItems(m.a, 0, {Item(0, 0)} + Fronts()) && HasItems(m.a, i, AfterFirst())
    requires HasItems(m.a, j, AfterOperator(op)) && HasItems(m.a, k, AfterSecond(op))
    ensures Cfg(k, Item(op, 3)) in q.f && t in q.f[Cfg(k, Item(op, 3))]
  {
    hide Usable, Generated, Leads, HasItems, FirstOf;
    OperatorRest(q.lam, q.first, t);
    ItemsOf(m.a, 0, {Item(0, 0)} + Fronts());
    ItemsOf(m.a, i, AfterFirst());
    ItemsOf(m.a, j, AfterOperator(op));
    ItemsOf(m.a, k, AfterSecond(op));
    SeedIn(m, q, aps0, compress, 0, {Item(0, 0)} + Fronts(), Item(t, 0), Item(op, 0), t);
    GoesAlong(m, q, aps0, compress, 0, Item(op, 0), i, t);
    GoesAlong(m, q, aps0, compress, i, Item(op, 1), j, t);
    GoesAlong(m, q, aps0, compress, j, Item(op, 2), k, t);
  }

  /** On an operator the state has its shift and the reduce, and no other action. */
  lemma OperatorConflict(m: Machine, q: Sets, aps0: seq<seq<Action>>, compress: bool, op: nat, t: nat, k: nat)
    returns (l: nat)
    requires Operators(m, q, aps0, compress) && 1 <= op <= 2 && 1 <= t <= 2 && HasItems(m.a, k, AfterSecond(op))
    requires Cfg(k, Item(op, 3)) in q.f && t in q.f[Cfg(k, Item(op, 3))]
    ensures Leads(m.g, m.a, k, Terminal(t), l)
    ensures OnlyTwo(m.g, m.a, q.f, k, Action(t, Shift, l), Action(t, Reduce, op))
  {
    hide Usable, Generated, Leads, IsRaw, HasItems;
    ItemsOf(m.a, k, AfterSecond(op));
    l := Transition(m, q, aps0, compress, k, Item(t, 1));
    CompleteReduces(m, q, op, t, k);
    forall z | IsRaw(m.g, m.a, q.f, k, z) && z.sp == t
      ensures z == Action(t, Shift, l) || z == Action(t, Reduce, op)
    {
      OneOfTwo(m, q, aps0, compress, op, t, k, l, z);
    }
  }

  lemma CompleteReduces(m: Machine, q: Sets, op: nat, t: nat, k: nat)
    requires m.g == OperatorGrammar() && 1 <= op <= 2 && 1 <= t <= 2 && HasItems(m.a, k, AfterSecond(op))
    requires Cfg(k, Item(op, 3)) in q.f && t in q.f[Cfg(k, Item(op, 3))]
    ensures IsRaw(m.g, m.a, q.f, k, Action(t, Reduce, op))
  {
    ItemsOf(m.a, k, AfterSecond(op));
    assert IsReduce(m.g, m.a, q.f, k, Action(t, Reduce, op));
  }

  lemma OneOfTwo(m: Machine, q: Sets, aps0: seq<seq<Action>>, compress: bool, op: nat, t: nat, k: nat, l: nat,
                 z: Action)
    requires Operators(m, q, aps0, compress) && 1 <= op <= 2 && 1 <= t <= 2 && HasItems(m.a, k, AfterSecond(op))
    requires Leads(m.g, m.a, k, Terminal(t), l) && IsRaw(m.g, m.a, q.f, k, z) && z.sp == t
    ensures z == Action(t, Shift, l) || z == Action(t, Reduce, op)
  {
    hide Usable, Generated, Leads, IsRaw;
    GeneratedIsUsable(m, q, aps0, compress);
    ItemsOf(m.a, k, AfterSecond(op));
    RawCases(m, q, aps0, compress, k, z);
    if z.kind == Shift {
      LeadsUnique(m.g, q.lam, q.first, m.a, k, Terminal(t), z.target, l);
    }
  }

  // ----- The decision -----

  /** A token without substitutes finds its own action, compressed or not. */
  lemma FoundPlainly(m: Machine, q: Sets, aps0: seq<seq<Action>>, compress: bool, k: nat, act: Action)
    requires Generated(m, q, aps0, compress) && NoSubstitutes(m.g) && k < |aps0| && act in aps0[k] && Live(act)
    requires act.sp < m.g.nterminal < m.g.nsymbol
    ensures k < |m.aps| && ChainEnds(m.g.fallback, act.sp, 0)
    ensures Decide(m.g, m.aps[k], act.sp, 0) == EffectOf(act)
  {
    hide Usable, Collection, FirstSetsOf, ExactFollow, CompressedBy, UniqueLive, UsesWildcard, Contested, IsRaw;
    var ap0, ap, t := aps0[k], m.aps[k], act.sp;
    assert ActionsFor(m.g, m.a, q.f, k, ap0) && ListMade(m.g, ap0, ap, compress);
    LiveOnUnique(ap0, act);
    if ap != ap0 {
      var r: nat :| CompressedBy(m.g, ap0, ap, r);
      if IsReduceBy(act, r) {
        MovedPreservedIff(m.g, ap0, ap, r, t, 0);
      } else {
        OthersPreserved(m.g, ap0, ap, r, t, 0);
      }
    }
  }

  /** Behind  e op e  every parser for the grammar, compressed or not, shifts TIMES if `op` is PLUS, and
      reduces on every other operator: TIMES binds more tightly, and both associate to the left. */
  lemma TighterFirst(m: Machine, q: Sets, aps0: seq<seq<Action>>, compress: bool, op: nat, t: nat)
    returns (i: nat, j: nat, k: nat, l: nat)
    requires Operators(m, q, aps0, compress) && 1 <= op <= 2 && 1 <= t <= 2
    ensures Behind(m, op, i, j, k) && Leads(m.g, m.a, k, Terminal(t), l) && k < |m.aps|
    ensures DecidesOn(m.g, m.aps[k], t, 0, if op == 1 && t == 2 then Effect(Shift, l) else Effect(Reduce, op))
  {
    hide Usable, Generated, Leads, HasItems, IsRaw, OnlyTwo, Behind, Contested;
    GeneratedIsUsable(m, q, aps0, compress);
    i, j, k := WayBehind(m, q, aps0, compress, op);
    BehindIs(m, op, i, j, k);
    OperatorLookahead(m, q, aps0, compress, op, t, i, j, k);
    l := OperatorConflict(m, q, aps0, compress, op, t, k);
    ContestedAt(m, q, aps0, compress, k);
    var act := Survivor(m, q, aps0, op, t, k, l);
    FoundPlainly(m, q, aps0, compress, k, act);
  }

  lemma BehindIs(m: Machine, op: nat, i: nat, j: nat, k: nat)
    requires Behind(m, op, i, j, k)
    ensures k < |m.a.states|
  {
  }

  lemma Survivor(m: Machine, q: Sets, aps0: seq<seq<Action>>, op: nat, t: nat, k: nat, l: nat) returns (act: Action)
    requires m.g == OperatorGrammar() && 1 <= op <= 2 && 1 <= t <= 2 && k < |aps0|
    requires Contested(m.g, m.a, q.f, k, aps0[k])
    requires OnlyTwo(m.g, m.a, q.f, k, Action(t, Shift, l), Action(t, Reduce, op))
    ensures act == if op == 1 && t == 2 then Action(t, Shift, l) else Action(t, Reduce, op)
    ensures act in aps0[k] && Live(act) && NoSubstitutes(m.g) && t < m.g.nterminal < m.g.nsymbol
  {
    hide OnlyTwo, Contested;
    OperatorIsWf();
    ShiftAgainstReduce(m.g, m.a, q.f, k, aps0[k], t, l, op);
    act := if op == 1 && t == 2 then Action(t, Shift, l) else Action(t, Reduce, op);
  }

  lemma ContestedAt(m: Machine, q: Sets, aps0: seq<seq<Action>>, compress: bool, k: nat)
    requires Generated(m, q, aps0, compress) && k < |aps0|
    ensures Contested(m.g, m.a, q.f, k, aps0[k])
  {
  }
}
