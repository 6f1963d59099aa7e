/** What the lambda flags and first sets say about derivations, and exactly when the lambda
    flags are complete. */
module FirstMeaning {
  import opened Grammars
  import opened FirstSets

  ghost predicate DerivesFrom(g: Grammar, t: Tree, a: nat) {
    t.Node? && WfTree(g, t) && Root(g, t) == a
  }

  /** Some parse tree of `a` has the empty yield. */
  ghost predicate Nullable(g: Grammar, a: nat) {
    exists t :: DerivesFrom(g, t, a) && Yield(t) == []
  }

  /** Some form derived from `a` begins with terminal `s`. */
  ghost predicate CanBegin(g: Grammar, a: nat, s: nat) {
    s < g.nterminal && exists t :: DerivesFrom(g, t, a) && Yield(t) != [] && Yield(t)[0] == s
  }

  /** A rule whose right-hand side consists of nonterminals with empty rules belongs to a
      nonterminal that has an empty rule itself. */
  ghost predicate EmptyRuleClosed(g: Grammar) {
    forall r | 0 <= r < |g.rules| ::
      (forall i | 0 <= i < |g.rules[r].rhs| ::
        g.rules[r].rhs[i].Nonterminal? && HasEmptyRule(g, g.rules[r].rhs[i].index))
      ==> HasEmptyRule(g, g.rules[r].lhs)
  }

  // ----- Lambda -----

  lemma EmptyTree(g: Grammar, a: nat) returns (t: Tree)
    requires HasEmptyRule(g, a)
    ensures DerivesFrom(g, t, a) && Yield(t) == []
  {
    var r :| 0 <= r < |g.rules| && g.rules[r].lhs == a && g.rules[r].rhs == [];
    t := Node(r, []);
  }

  lemma {:induction false} EmptyForest(g: Grammar, lam: set<nat>, syms: seq<Symbol>) returns (f: seq<Tree>)
    requires AllLambda(lam, syms) && forall a | a in lam :: HasEmptyRule(g, a)
    ensures WfForest(g, f) && SpellsAll(syms, Roots(g, f)) && YieldAll(f) == []
  {
    if syms == [] {
      f := [];
    } else {
      assert SymbolLambda(lam, syms[0]);
      var t := EmptyTree(g, syms[0].index);
      var rest := EmptyForest(g, lam, syms[1..]);
      f := [t] + rest;
      ForestCons(g, syms, t, rest);
    }
  }

  lemma ForestSplit(g: Grammar, syms: seq<Symbol>, f: seq<Tree>)
    requires WfForest(g, f) && SpellsAll(syms, Roots(g, f)) && f != []
    ensures WfTree(g, f[0]) && Spells(syms[0], Root(g, f[0]))
    ensures WfForest(g, f[1..]) && SpellsAll(syms[1..], Roots(g, f[1..]))
    ensures YieldAll(f) == Yield(f[0]) + YieldAll(f[1..])
  {
    assert Roots(g, f)[0] == Root(g, f[0]);
    assert Roots(g, f[1..]) == Roots(g, f)[1..];
  }

  lemma ForestCons(g: Grammar, syms: seq<Symbol>, t: Tree, rest: seq<Tree>)
    requires syms != [] && WfTree(g, t) && Spells(syms[0], Root(g, t))
    requires WfForest(g, rest) && SpellsAll(syms[1..], Roots(g, rest))
    ensures WfForest(g, [t] + rest) && SpellsAll(syms, Roots(g, [t] + rest))
    ensures YieldAll([t] + rest) == Yield(t) + YieldAll(rest)
  {
    assert ([t] + rest)[1..] == rest;
    assert Roots(g, [t] + rest) == [Root(g, t)] + Roots(g, rest);
  }

  lemma {:induction false} NullableTree(g: Grammar, t: Tree)
    requires WfGrammar(g) && EmptyRuleClosed(g) && WfTree(g, t) && Yield(t) == []
    ensures t.Node? && HasEmptyRule(g, Root(g, t))
    decreases t, 0
  {
    NullableForest(g, g.rules[t.rule].rhs, t.kids);
  }

  lemma {:induction false} NullableForest(g: Grammar, syms: seq<Symbol>, f: seq<Tree>)
    requires WfGrammar(g) && EmptyRuleClosed(g)
    requires WfForest(g, f) && SpellsAll(syms, Roots(g, f)) && YieldAll(f) == []
    requires forall i | 0 <= i < |syms| :: WfSymbol(g, syms[i])
    ensures forall i | 0 <= i < |syms| :: syms[i].Nonterminal? && HasEmptyRule(g, syms[i].index)
    decreases f, 1
  {
    if f != [] {
      ForestSplit(g, syms, f);
      NullableTree(g, f[0]);
      assert WfSymbol(g, syms[0]) && WfRule(g, g.rules[f[0].rule]);
      NullableForest(g, syms[1..], f[1..]);
    }
  }

  /** The flag marks exactly the nonterminals that generate the empty string if and only if
      the grammar is closed under empty rules in the sense above. */
  lemma LambdaExactIff(g: Grammar, lam: set<nat>)
    requires WfGrammar(g) && LambdaIsEmptyRule(g, lam)
    ensures (forall a :: a in lam <==> Nullable(g, a)) <==> EmptyRuleClosed(g)
  {
    if EmptyRuleClosed(g) {
      forall a ensures a in lam <==> Nullable(g, a) {
        if a in lam {
          var t := EmptyTree(g, a);
        }
        if Nullable(g, a) {
          var t :| DerivesFrom(g, t, a) && Yield(t) == [];
          NullableTree(g, t);
        }
      }
    }
    if forall a :: a in lam <==> Nullable(g, a) {
      forall r | 0 <= r < |g.rules| && forall i | 0 <= i < |g.rules[r].rhs| ::
          g.rules[r].rhs[i].Nonterminal? && HasEmptyRule(g, g.rules[r].rhs[i].index)
        ensures HasEmptyRule(g, g.rules[r].lhs)
      {
        var f := EmptyForest(g, lam, g.rules[r].rhs);
        assert DerivesFrom(g, Node(r, f), g.rules[r].lhs);
        assert Yield(Node(r, f)) == [];
      }
    }
  }

  /** s ::= a T.  a ::= b.  b ::= . */
  function ChainGrammar(): Grammar {
    Grammar(2, 6,
            [Rule(2, [Nonterminal(3), Terminal(1)], None), Rule(3, [Nonterminal(4)], None), Rule(4, [], None)],
            2, 5, [-1, -1], [UnknownAssoc, UnknownAssoc], [0, 0], None)
  }

  lemma ChainGrammarIsWf()
    ensures WfGrammar(ChainGrammar())
  {
    var g := ChainGrammar();
    assert g.rules[0].lhs == g.start;
    assert WfRule(g, g.rules[0]) && WfRule(g, g.rules[1]) && WfRule(g, g.rules[2]);
  }

  /** The flag is not "generates the empty string": here it misses nonterminal a. */
  lemma LambdaMisses(lam: set<nat>)
    requires LambdaIsEmptyRule(ChainGrammar(), lam)
    ensures Nullable(ChainGrammar(), 3) && 3 !in lam
  {
    var g := ChainGrammar();
    var inner := Node(2, []);
    assert WfTree(g, inner);
    assert WfForest(g, [inner]) && Roots(g, [inner]) == [4];
    assert DerivesFrom(g, Node(1, [inner]), 3);
    assert YieldAll([inner]) == Yield(inner) + YieldAll([]) by { assert [inner][1..] == []; }
    assert Yield(Node(1, [inner])) == [];
  }

  // ----- First sets: soundness -----

  ghost function Beginners(g: Grammar): First {
    map a: nat | a < g.nsymbol && IsNonterminal(g, a) :: set s: nat | s < g.nterminal && CanBegin(g, a, s)
  }

  lemma {:induction false} LeafForest(g: Grammar, syms: seq<Symbol>) returns (f: seq<Tree>)
    requires WfGrammar(g) && forall i | 0 <= i < |syms| :: WfSymbol(g, syms[i])
    ensures WfForest(g, f) && SpellsAll(syms, Roots(g, f))
  {
    if syms == [] {
      f := [];
    } else {
      assert WfSymbol(g, syms[0]);
      var s := if syms[0].Multiterminal? then syms[0].subs[0] else syms[0].index;
      var rest := LeafForest(g, syms[1..]);
      f := [Leaf(s)] + rest;
      ForestCons(g, syms, Leaf(s), rest);
    }
  }

  lemma {:induction false} FirstOfBegins(g: Grammar, lam: set<nat>, syms: seq<Symbol>, s: nat) returns (f: seq<Tree>)
    requires WfGrammar(g) && LambdaIsEmptyRule(g, lam)
    requires forall i | 0 <= i < |syms| :: WfSymbol(g, syms[i])
    requires s in FirstOf(lam, Beginners(g), syms)
    ensures WfForest(g, f) && SpellsAll(syms, Roots(g, f)) && YieldAll(f) != [] && YieldAll(f)[0] == s
  {
    if s in SymbolFirst(Beginners(g), syms[0]) {
      var t := SymbolBegins(g, syms[0], s);
      var rest := LeafForest(g, syms[1..]);
      f := [t] + rest;
      ForestCons(g, syms, t, rest);
    } else {
      var t := EmptyTree(g, syms[0].index);
      var rest := FirstOfBegins(g, lam, syms[1..], s);
      f := [t] + rest;
      ForestCons(g, syms, t, rest);
    }
  }

  lemma SymbolBegins(g: Grammar, x: Symbol, s: nat) returns (t: Tree)
    requires WfGrammar(g) && WfSymbol(g, x)
    requires s in SymbolFirst(Beginners(g), x)
    ensures WfTree(g, t) && Spells(x, Root(g, t)) && Yield(t) != [] && Yield(t)[0] == s
  {
    if x.Nonterminal? {
      assert CanBegin(g, x.index, s);
      t := BeginTree(g, x.index, s);
    } else {
      t := Leaf(s);
    }
  }

  ghost function BeginTree(g: Grammar, a: nat, s: nat): (t: Tree)
    requires CanBegin(g, a, s)
    ensures DerivesFrom(g, t, a) && Yield(t) != [] && Yield(t)[0] == s
  {
    var t :| DerivesFrom(g, t, a) && Yield(t) != [] && Yield(t)[0] == s;
    t
  }

  /** Every terminal in a first set begins some form derived from the nonterminal. */
  lemma FirstSound(g: Grammar, lam: set<nat>, first: First)
    requires WfGrammar(g) && FirstSetsOf(g, lam, first)
    ensures forall a, s | a in first && s in first[a] :: CanBegin(g, a, s)
  {
    var best := Beginners(g);
    forall r | 0 <= r < |g.rules| ensures RuleSatisfied(g, lam, best, r) {
      assert WfRule(g, g.rules[r]);
      FirstOfTerminals(g, lam, best, g.rules[r].rhs);
      forall s | s in FirstOf(lam, best, g.rules[r].rhs) ensures s in best[g.rules[r].lhs] {
        var f := FirstOfBegins(g, lam, g.rules[r].rhs, s);
        assert DerivesFrom(g, Node(r, f), g.rules[r].lhs);
        assert CanBegin(g, g.rules[r].lhs, s);
      }
    }
    assert Below(first, best);
  }

  // ----- First sets: completeness -----

  lemma NodeSpellsNonterminal(g: Grammar, x: Symbol, t: Tree)
    requires WfGrammar(g) && WfSymbol(g, x) && WfTree(g, t) && Spells(x, Root(g, t))
    ensures t.Node? ==> x == Nonterminal(Root(g, t))
  {
    if t.Node? {
      assert WfRule(g, g.rules[t.rule]);
    }
  }

  lemma {:induction false} TreeBegins(g: Grammar, lam: set<nat>, first: First, t: Tree)
    requires WfGrammar(g) && LambdaIsEmptyRule(g, lam) && Solution(g, lam, first) && EmptyRuleClosed(g)
    requires t.Node? && WfTree(g, t) && Yield(t) != [] && Yield(t)[0] < g.nterminal
    ensures Root(g, t) in first && Yield(t)[0] in first[Root(g, t)]
    decreases t, 0
  {
    assert WfRule(g, g.rules[t.rule]);
    ForestBegins(g, lam, first, g.rules[t.rule].rhs, t.kids);
    assert RuleSatisfied(g, lam, first, t.rule);
  }

  /** For a grammar closed under empty rules: the first terminal of whatever `syms` derive is
      in their first set, and only flagged symbols derive nothing. */
  lemma {:induction false} ForestBegins(g: Grammar, lam: set<nat>, first: First, syms: seq<Symbol>, f: seq<Tree>)
    requires WfGrammar(g) && LambdaIsEmptyRule(g, lam) && Solution(g, lam, first) && EmptyRuleClosed(g)
    requires WfForest(g, f) && SpellsAll(syms, Roots(g, f))
    requires forall i | 0 <= i < |syms| :: WfSymbol(g, syms[i])
    ensures YieldAll(f) == [] ==> AllLambda(lam, syms)
    ensures YieldAll(f) != [] && YieldAll(f)[0] < g.nterminal ==> YieldAll(f)[0] in FirstOf(lam, first, syms)
    decreases f, 1
  {
    if f != [] {
      ForestSplit(g, syms, f);
      assert WfSymbol(g, syms[0]);
      NodeSpellsNonterminal(g, syms[0], f[0]);
      if Yield(f[0]) == [] {
        NullableTree(g, f[0]);
        ForestBegins(g, lam, first, syms[1..], f[1..]);
        assert SymbolLambda(lam, syms[0]);
        assert AllLambda(lam, syms[1..]) ==> AllLambda(lam, syms);
      } else if Yield(f[0])[0] < g.nterminal {
        assert YieldAll(f)[0] == Yield(f[0])[0];
        if f[0].Node? {
          TreeBegins(g, lam, first, f[0]);
        }
        assert Yield(f[0])[0] in SymbolFirst(first, syms[0]);
      }
    }
  }

  /** When the grammar is closed under empty rules the first sets are exact. */
  lemma FirstExact(g: Grammar, lam: set<nat>, first: First)
    requires WfGrammar(g) && FirstSetsOf(g, lam, first) && EmptyRuleClosed(g)
    ensures forall a, s | a in first :: s in first[a] <==> CanBegin(g, a, s)
  {
    FirstSound(g, lam, first);
    forall a, s | a in first && CanBegin(g, a, s) ensures s in first[a] {
      TreeBegins(g, lam, first, BeginTree(g, a, s));
    }
  }
}
