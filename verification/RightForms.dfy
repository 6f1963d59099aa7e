/** Rightmost derivations of strings of symbols, in which a multi-terminal stands for itself. */
module RightForms {
  import opened Grammars
  import opened FirstSets
  import opened FirstMeaning
  import opened ValidPrefixes

  ghost predicate TerminalsOnly(w: seq<Symbol>) {
    forall i | 0 <= i < |w| :: !w[i].Nonterminal?
  }

  /** One step: rule `r` at the last nonterminal of `v`. */
  ghost predicate RewritesAt(g: Grammar, v: seq<Symbol>, w: seq<Symbol>, before: seq<Symbol>, r: nat, y: seq<Symbol>) {
    && r < |g.rules| && TerminalsOnly(y)
    && v == before + [Nonterminal(g.rules[r].lhs)] + y && w == before + g.rules[r].rhs + y
  }

  ghost predicate Rewrites(g: Grammar, v: seq<Symbol>, w: seq<Symbol>) {
    exists before, r: nat, y :: RewritesAt(g, v, w, before, r, y)
  }

  ghost predicate Derives(g: Grammar, v: seq<Symbol>, w: seq<Symbol>, n: nat)
    decreases n
  {
    if n == 0 then v == w else exists u :: Derives(g, v, u, n - 1) && Rewrites(g, u, w)
  }

  lemma RewritesInContext(g: Grammar, p: seq<Symbol>, v: seq<Symbol>, w: seq<Symbol>, y: seq<Symbol>)
    requires Rewrites(g, v, w) && TerminalsOnly(y)
    ensures Rewrites(g, p + v + y, p + w + y)
  {
    var before, r: nat, z :| RewritesAt(g, v, w, before, r, z);
    var x, body := [Nonterminal(g.rules[r].lhs)], g.rules[r].rhs;
    assert p + (before + x + z) + y == (p + before) + x + (z + y);
    assert p + (before + body + z) + y == (p + before) + body + (z + y);
    assert RewritesAt(g, p + v + y, p + w + y, p + before, r, z + y);
  }

  lemma {:induction false} DerivesInContext(g: Grammar, p: seq<Symbol>, v: seq<Symbol>, w: seq<Symbol>, y: seq<Symbol>,
                                            n: nat)
    requires Derives(g, v, w, n) && TerminalsOnly(y)
    ensures Derives(g, p + v + y, p + w + y, n)
    decreases n
  {
    hide Rewrites;
    if n > 0 {
      var u :| Derives(g, v, u, n - 1) && Rewrites(g, u, w);
      DerivesInContext(g, p, v, u, y, n - 1);
      RewritesInContext(g, p, u, w, y);
    }
  }

  lemma {:induction false} DerivesOn(g: Grammar, u: seq<Symbol>, v: seq<Symbol>, w: seq<Symbol>, n: nat, k: nat)
    requires Derives(g, u, v, n) && Derives(g, v, w, k)
    ensures Derives(g, u, w, n + k)
    decreases k
  {
    hide Rewrites;
    if k > 0 {
      var x :| Derives(g, v, x, k - 1) && Rewrites(g, x, w);
      DerivesOn(g, u, v, x, n, k - 1);
    }
  }

  /** The left-hand side of a rule derives what its right-hand side does. */
  lemma RuleDerives(g: Grammar, r: nat, w: seq<Symbol>, n: nat)
    requires r < |g.rules| && Derives(g, g.rules[r].rhs, w, n)
    ensures Derives(g, [Nonterminal(g.rules[r].lhs)], w, n + 1)
  {
    var x := [Nonterminal(g.rules[r].lhs)];
    assert [] + x + [] == x && [] + g.rules[r].rhs + [] == g.rules[r].rhs;
    assert RewritesAt(g, x, g.rules[r].rhs, [], r, []);
    assert Derives(g, x, x, 0);
    assert Rewrites(g, x, g.rules[r].rhs) && Derives(g, x, x, 1 - 1);
    DerivesOn(g, x, g.rules[r].rhs, w, 1, n);
  }

  // ----- From trees to derivations -----

  lemma {:induction false} TreeDerives(g: Grammar, x: Symbol, t: Tree) returns (w: seq<Symbol>, n: nat)
    requires WfGrammar(g) && WfSymbol(g, x) && WfTree(g, t) && Spells(x, Root(g, t)) && Terminals(g, Yield(t))
    ensures Derives(g, [x], w, n) && TerminalsOnly(w) && SpellsAll(w, Yield(t))
    decreases t, 0
  {
    if t.Leaf? {
      w, n := [x], 0;
      assert Yield(t)[0] == t.sym;
    } else {
      NodeSpellsNonterminal(g, x, t);
      assert WfRule(g, g.rules[t.rule]);
      var k;
      w, k := ForestDerives(g, g.rules[t.rule].rhs, t.kids);
      n := k + 1;
      RuleDerives(g, t.rule, w, k);
    }
  }

  lemma {:induction false} ForestDerives(g: Grammar, syms: seq<Symbol>, f: seq<Tree>) returns (w: seq<Symbol>, n: nat)
    requires WfGrammar(g) && forall i | 0 <= i < |syms| :: WfSymbol(g, syms[i])
    requires WfForest(g, f) && SpellsAll(syms, Roots(g, f)) && Terminals(g, YieldAll(f))
    ensures Derives(g, syms, w, n) && TerminalsOnly(w) && SpellsAll(w, YieldAll(f))
    decreases f, 1
  {
    hide WfGrammar, Spells, Rewrites, WfTree;
    if f == [] {
      w, n := [], 0;
    } else {
      ForestSplit(g, syms, f);
      TerminalsOfBoth(g, Yield(f[0]), YieldAll(f[1..]));
      var w1, n1 := TreeDerives(g, syms[0], f[0]);
      var w2, n2 := ForestDerives(g, syms[1..], f[1..]);
      w, n := w1 + w2, n2 + n1;
      DerivesInContext(g, [syms[0]], syms[1..], w2, [], n2);
      DerivesInContext(g, [], [syms[0]], w1, w2, n1);
      assert [syms[0]] + syms[1..] + [] == syms && [] + w1 + w2 == w;
      assert [syms[0]] + w2 + [] == [syms[0]] + w2 && [] + [syms[0]] + w2 == [syms[0]] + w2;
      DerivesOn(g, syms, [syms[0]] + w2, w, n2, n1);
    }
  }

  lemma TerminalsOfBoth(g: Grammar, a: seq<nat>, b: seq<nat>)
    requires Terminals(g, a + b)
    ensures Terminals(g, a) && Terminals(g, b)
  {
    assert forall i | 0 <= i < |a| :: a[i] == (a + b)[i];
    assert forall i | 0 <= i < |b| :: b[i] == (a + b)[|a| + i];
  }

  // ----- What the rest of a rule derives -----

  ghost predicate Fruitful(g: Grammar, x: Symbol) {
    WfSymbol(g, x) && (x.Nonterminal? ==> DerivesTerminals(g, x.index))
  }

  lemma RuleIsFruitful(g: Grammar, r: nat)
    requires WfGrammar(g) && Productive(g) && r < |g.rules|
    ensures forall i | 0 <= i < |g.rules[r].rhs| :: Fruitful(g, g.rules[r].rhs[i])
  {
    assert WfRule(g, g.rules[r]);
  }

  ghost predicate SameFront(g: Grammar, w: seq<nat>, z: seq<nat>) {
    (w == [] ==> z == []) && (w != [] && w[0] < g.nterminal ==> z != [] && z[0] == w[0])
  }

  /** A tree with nonterminals at its leaves can be completed; a terminal in front stays in front. */
  lemma {:induction false} CompleteTree(g: Grammar, x: Symbol, t: Tree) returns (u: Tree)
    requires WfGrammar(g) && Productive(g) && Fruitful(g, x) && WfTree(g, t) && Spells(x, Root(g, t))
    ensures WfTree(g, u) && Spells(x, Root(g, u)) && Terminals(g, Yield(u)) && SameFront(g, Yield(t), Yield(u))
    decreases t, 0
  {
    if t.Leaf? {
      u := t;
      if x.Nonterminal? {
        u := SymbolTree(g, x);
      }
    } else {
      NodeSpellsNonterminal(g, x, t);
      RuleIsFruitful(g, t.rule);
      var kids := CompleteForest(g, g.rules[t.rule].rhs, t.kids);
      u := Node(t.rule, kids);
    }
  }

  lemma {:induction false} CompleteForest(g: Grammar, syms: seq<Symbol>, f: seq<Tree>) returns (h: seq<Tree>)
    requires WfGrammar(g) && Productive(g) && forall i | 0 <= i < |syms| :: Fruitful(g, syms[i])
    requires WfForest(g, f) && SpellsAll(syms, Roots(g, f))
    ensures WfForest(g, h) && SpellsAll(syms, Roots(g, h)) && Terminals(g, YieldAll(h))
    ensures SameFront(g, YieldAll(f), YieldAll(h))
    decreases f, 1
  {
    hide WfGrammar, Productive, Fruitful, Spells, WfTree;
    if f == [] {
      h := [];
    } else {
      ForestSplit(g, syms, f);
      var t := CompleteTree(g, syms[0], f[0]);
      var rest := CompleteForest(g, syms[1..], f[1..]);
      h := [t] + rest;
      ForestCons(g, syms, t, rest);
    }
  }

  /** A terminal in the first set of a string of symbols begins one of its derivations. */
  lemma RestBegins(g: Grammar, lam: set<nat>, first: First, syms: seq<Symbol>, t: nat)
    returns (w: seq<Symbol>, n: nat)
    requires WfGrammar(g) && Productive(g) && FirstSetsOf(g, lam, first)
    requires forall i | 0 <= i < |syms| :: Fruitful(g, syms[i])
    requires t in FirstOf(lam, first, syms)
    ensures Derives(g, syms, w, n) && TerminalsOnly(w) && w != [] && Spells(w[0], t)
  {
    hide Derives, TerminalsOnly;
    FirstSound(g, lam, first);
    FirstOfMonotone(lam, first, Beginners(g), syms);
    FirstOfTerminals(g, lam, first, syms);
    var f := FirstOfBegins(g, lam, syms, t);
    var h := CompleteForest(g, syms, f);
    w, n := ForestDerives(g, syms, h);
  }

  /** Flagged symbols derive nothing. */
  lemma RestVanishes(g: Grammar, lam: set<nat>, syms: seq<Symbol>) returns (n: nat)
    requires WfGrammar(g) && LambdaIsEmptyRule(g, lam) && AllLambda(lam, syms)
    requires forall i | 0 <= i < |syms| :: WfSymbol(g, syms[i])
    ensures Derives(g, syms, [], n)
  {
    var f := EmptyForest(g, lam, syms);
    var w;
    w, n := ForestDerives(g, syms, f);
  }

  /** Any string of fruitful symbols derives terminals. */
  lemma RestEnds(g: Grammar, syms: seq<Symbol>) returns (w: seq<Symbol>, n: nat)
    requires WfGrammar(g) && Productive(g) && forall i | 0 <= i < |syms| :: Fruitful(g, syms[i])
    ensures Derives(g, syms, w, n) && TerminalsOnly(w)
  {
    var f := SymbolForest(g, syms);
    w, n := ForestDerives(g, syms, f);
  }
}
