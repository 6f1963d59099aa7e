/** Bounds on the follow sets: a lookahead of a rule is a terminal that can follow its left-hand
    side, and a rule of the start symbol is reduced by only at the end of the input. */
module Lookaheads {
  import opened Grammars
  import opened FirstSets
  import opened Automata
  import opened FollowSets
  import opened Report

  /** The terminals that `b` lets follow nonterminal `x`. */
  function Bound(b: First, x: nat): set<nat> {
    if x in b then b[x] else {}
  }

  /** Whatever may follow the nonterminal at position `d` of rule `q` is in its bound. */
  ghost predicate BoundAfter(g: Grammar, lam: set<nat>, first: First, b: First, q: nat, d: nat)
    requires q < |g.rules| && d < |g.rules[q].rhs|
  {
    g.rules[q].rhs[d].Nonterminal? ==>
      var x, rest := g.rules[q].rhs[d].index, g.rules[q].rhs[d + 1..];
      && FirstOf(lam, first, rest) <= Bound(b, x)
      && (AllLambda(lam, rest) ==> Bound(b, g.rules[q].lhs) <= Bound(b, x))
  }

  /** The equations of the FOLLOW sets of a grammar. */
  ghost predicate FollowBound(g: Grammar, lam: set<nat>, first: First, b: First) {
    && 0 in Bound(b, g.start)
    && forall q, d | 0 <= q < |g.rules| && 0 <= d < |g.rules[q].rhs| :: BoundAfter(g, lam, first, b, q, d)
  }

  ghost function BoundOf(g: Grammar, b: First, c: Cfg): set<nat> {
    if c.item.rule < |g.rules| then Bound(b, g.rules[c.item.rule].lhs) else {}
  }

  ghost function BoundSets(g: Grammar, a: Automaton, b: First): Follow {
    map c | c in a.fws :: BoundOf(g, b, c)
  }

  lemma SeedWithin(g: Grammar, lam: set<nat>, first: First, a: Automaton, b: First, c: Cfg, t: nat)
    requires Partial(g, lam, first, a) && FollowBound(g, lam, first, b) && IsCfg(a, c) && Seeded(g, lam, first, a, c, t)
    requires |a.states| > 0
    ensures t in BoundOf(g, b, c)
  {
    hide Partial;
    if SeededBy(g, lam, first, a.states[c.state].items, c.item, t) {
      var src :| src in a.states[c.state].items && Spawns(g, src, c.item) && t in FirstOf(lam, first, Rest(g, src));
      assert BoundAfter(g, lam, first, b, src.rule, src.dot);
    } else {
      StartKernelItem(g, lam, first, a, c.item);
    }
  }

  lemma StartKernelItem(g: Grammar, lam: set<nat>, first: First, a: Automaton, it: Item)
    requires Partial(g, lam, first, a) && |a.states| > 0 && it in a.states[0].basis
    ensures it.rule < |g.rules| && g.rules[it.rule].lhs == g.start
  {
    assert Placed(g, a, 0);
    assert it in ItemSet(a.states[0].basis);
  }

  lemma LinkWithin(g: Grammar, lam: set<nat>, first: First, a: Automaton, b: First, c: Cfg, d: Cfg)
    requires FollowBound(g, lam, first, b) && (ClosureLink(g, lam, c, d) || ShiftLink(g, a, c, d))
    ensures BoundOf(g, b, c) <= BoundOf(g, b, d)
  {
    hide Leads;
    if ClosureLink(g, lam, c, d) {
      assert BoundAfter(g, lam, first, b, c.item.rule, c.item.dot);
    }
  }

  /** The follow sets of the configurations are the least sets with the exact links. */
  ghost predicate ExactFollow(g: Grammar, lam: set<nat>, a: Automaton, f: Follow) {
    exists fplp :: ExactLinks(g, lam, a, fplp) && LeastFollow(a, fplp, f)
  }

  lemma BoundIsSolution(g: Grammar, lam: set<nat>, first: First, a: Automaton, fplp: Links, b: First)
    requires Collection(g, lam, first, a) && ExactLinks(g, lam, a, fplp) && FollowBound(g, lam, first, b)
    ensures FollowSolution(a, fplp, BoundSets(g, a, b))
  {
    hide Partial, Collection, FollowBound, Seeded, ClosureLink, ShiftLink, BoundOf, IsCfg;
    CollectionIsPartial(g, lam, first, a);
    BackLinksAreCfgs(g, lam, first, a);
    ExactLinksAreCfgs(g, lam, first, a, fplp);
    var h := BoundSets(g, a, b);
    forall c | c in h ensures a.fws[c] <= h[c] {
      SeedsAre(g, lam, first, a, c);
      forall t | t in a.fws[c] ensures t in h[c] {
        SeedWithin(g, lam, first, a, b, c, t);
      }
    }
    forall c | c in h ensures Propagated(h, fplp, c) {
      forall d | d in fplp[c] ensures d in h && h[c] <= h[d] {
        LinkWithin(g, lam, first, a, b, c, d);
      }
    }
  }

  /** Lookaheads stay within every solution of the FOLLOW equations. */
  lemma LookaheadsWithin(g: Grammar, lam: set<nat>, first: First, a: Automaton, f: Follow, b: First)
    requires Collection(g, lam, first, a) && ExactFollow(g, lam, a, f) && FollowBound(g, lam, first, b)
    ensures forall c | c in f :: f[c] <= BoundOf(g, b, c)
  {
    hide Collection, FollowBound, ExactLinks, BoundOf, FollowSolution;
    var fplp :| ExactLinks(g, lam, a, fplp) && LeastFollow(a, fplp, f);
    BoundIsSolution(g, lam, first, a, fplp, b);
    assert FollowBelow(f, BoundSets(g, a, b));
  }

  lemma SeedsAre(g: Grammar, lam: set<nat>, first: First, a: Automaton, c: Cfg)
    requires Partial(g, lam, first, a) && IsCfg(a, c)
    ensures c in a.fws && forall t :: t in a.fws[c] <==> Seeded(g, lam, first, a, c, t)
  {
    hide StateOk, Placed, ShiftOk, Seeded, ClosureLink, ShiftLink;
    assert ConfigOk(g, lam, first, a, c);
  }

  // ----- The start symbol -----

  ghost function EndOnly(g: Grammar): First {
    map x: nat | x < g.nsymbol && IsNonterminal(g, x) :: if x == g.start then {0} else Range(g.nterminal)
  }

  lemma EndOnlyIsBound(g: Grammar, lam: set<nat>, first: First)
    requires WfGrammar(g) && Domain(g, first)
    ensures FollowBound(g, lam, first, EndOnly(g))
  {
    forall q, d | 0 <= q < |g.rules| && 0 <= d < |g.rules[q].rhs| ensures BoundAfter(g, lam, first, EndOnly(g), q, d) {
      assert WfRule(g, g.rules[q]) && WfSymbol(g, g.rules[q].rhs[d]);
      var rest := g.rules[q].rhs[d + 1..];
      forall i | 0 <= i < |rest| ensures WfSymbol(g, rest[i]) {
        assert rest[i] == g.rules[q].rhs[d + 1 + i];
      }
      FirstOfTerminals(g, lam, first, rest);
    }
  }

  /** The follow set of an item of a start rule is the end of the input at most. */
  lemma StartRulesWaitForEnd(g: Grammar, lam: set<nat>, first: First, a: Automaton, f: Follow, c: Cfg)
    requires WfGrammar(g) && FirstSetsOf(g, lam, first) && Collection(g, lam, first, a) && ExactFollow(g, lam, a, f)
    requires c in f && c.item.rule < |g.rules| && g.rules[c.item.rule].lhs == g.start
    ensures f[c] <= {0}
  {
    hide Collection, ExactFollow, FollowBound, BelowSolutions;
    EndOnlyIsBound(g, lam, first);
    LookaheadsWithin(g, lam, first, a, f, EndOnly(g));
  }
}
