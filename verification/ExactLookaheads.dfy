/** What the follow set of an item means: the tokens that can come after its left-hand side when the
    parser has come to the item's state. */
module ExactLookaheads {
  import opened Grammars
  import opened FirstSets
  import opened FirstMeaning
  import opened Automata
  import opened FollowSets
  import opened Completeness
  import opened Lookaheads
  import opened ValidPrefixes
  import opened RightForms

  /** The symbols `w` lead from the start state to state `i`. */
  ghost predicate Reaches(g: Grammar, a: Automaton, w: seq<Symbol>, i: nat)
    decreases |w|, 1
  {
    if w == [] then i == 0 < |a.states| else exists h: nat :: ReachesVia(g, a, w, h, i)
  }

  ghost predicate ReachesVia(g: Grammar, a: Automaton, w: seq<Symbol>, h: nat, i: nat)
    requires w != []
    decreases |w|, 0
  {
    Reaches(g, a, w[..|w| - 1], h) && Leads(g, a, h, w[|w| - 1], i)
  }

  /** The part of the item's rule in front of the dot is at the end of `w`. */
  ghost predicate ItemOn(g: Grammar, w: seq<Symbol>, it: Item) {
    && it.rule < |g.rules| && it.dot <= |g.rules[it.rule].rhs| && it.dot <= |w|
    && w[|w| - it.dot..] == g.rules[it.rule].rhs[..it.dot]
  }

  /** A right sentential form of which `w` is a viable prefix with the item at its end, and in which
      the terminals `y` come after the left-hand side of the item. */
  ghost predicate Carries(g: Grammar, w: seq<Symbol>, it: Item, y: seq<Symbol>, n: nat) {
    && ItemOn(g, w, it) && TerminalsOnly(y)
    && Derives(g, [Nonterminal(g.start)], w[..|w| - it.dot] + [Nonterminal(g.rules[it.rule].lhs)] + y, n)
  }

  /** Token `t` comes next: the first of the terminals, or the end of the input. */
  ghost predicate ComesNext(y: seq<Symbol>, t: nat) {
    if y == [] then t == 0 else Spells(y[0], t)
  }

  ghost predicate MayFollow(g: Grammar, a: Automaton, c: Cfg, t: nat) {
    exists w, y, n: nat :: Reaches(g, a, w, c.state) && Carries(g, w, c.item, y, n) && ComesNext(y, t)
  }

  // ----- Every lookahead can follow -----

  lemma CarriesOn(g: Grammar, w: seq<Symbol>, src: Item, it: Item, y: seq<Symbol>, n: nat, z: seq<Symbol>, k: nat)
    requires Carries(g, w, src, y, n) && Spawns(g, src, it)
    requires Derives(g, Rest(g, src), z, k) && TerminalsOnly(z)
    ensures Carries(g, w, it, z + y, n + 1 + k)
  {
    hide Derives, Rewrites;
    var rule, x := g.rules[src.rule], [Nonterminal(g.rules[it.rule].lhs)];
    var before, rest := w[..|w| - src.dot], Rest(g, src);
    var v := before + [Nonterminal(rule.lhs)] + y;
    assert rule.rhs == rule.rhs[..src.dot] + x + rest;
    assert before + rule.rhs + y == w + x + rest + y by { assert w == before + rule.rhs[..src.dot]; }
    assert RewritesAt(g, v, before + rule.rhs + y, before, src.rule, y);
    OneStep(g, [Nonterminal(g.start)], v, w + x + rest + y, n);
    DerivesInContext(g, w + x, rest, z, y, k);
    DerivesOn(g, [Nonterminal(g.start)], w + x + rest + y, w + x + z + y, n + 1, k);
    assert w[..|w| - 0] + x + (z + y) == w + x + z + y;
  }

  lemma OneStep(g: Grammar, s: seq<Symbol>, v: seq<Symbol>, w: seq<Symbol>, n: nat)
    requires Derives(g, s, v, n) && Rewrites(g, v, w)
    ensures Derives(g, s, w, n + 1)
  {
  }

  lemma CarriesPast(g: Grammar, w: seq<Symbol>, it: Item, y: seq<Symbol>, n: nat)
    requires Carries(g, w, it, y, n) && Next(g, it).Some?
    ensures Carries(g, w + [Next(g, it).value], Advance(it), y, n)
  {
    var v, x := w + [Next(g, it).value], g.rules[it.rule].rhs;
    assert v[|v| - it.dot - 1..] == w[|w| - it.dot..] + [x[it.dot]] == x[..it.dot + 1];
    assert v[..|v| - it.dot - 1] == w[..|w| - it.dot];
  }

  lemma ReachesPast(g: Grammar, a: Automaton, w: seq<Symbol>, i: nat, x: Symbol, j: nat)
    requires Reaches(g, a, w, i) && Leads(g, a, i, x, j)
    ensures Reaches(g, a, w + [x], j)
  {
    assert (w + [x])[..|w + [x]| - 1] == w;
    assert ReachesVia(g, a, w + [x], i, j);
  }

  ghost predicate Carried(g: Grammar, w: seq<Symbol>, it: Item) {
    exists y, n: nat :: Carries(g, w, it, y, n)
  }

  /** A string of symbols that leads to a state is a viable prefix with each of its items. */
  lemma {:induction false} ItemsCarried(g: Grammar, lam: set<nat>, first: First, a: Automaton, w: seq<Symbol>, i: nat)
    requires WfGrammar(g) && Productive(g) && Partial(g, lam, first, a) && Reaches(g, a, w, i)
    ensures i < |a.states| && forall it | it in a.states[i].items :: Carried(g, w, it)
    decreases |w|
  {
    hide Productive, WfGrammar, Carried, ConfigOk, ShiftOk, KeysOk, InClosedSupersets;
    KernelCarried(g, lam, first, a, w, i);
    assert StateOk(g, a.states[i]);
    var all := ItemSet(a.states[i].items);
    var d := set it | it in a.states[i].items && Carried(g, w, it);
    assert Closed(g, d) by {
      forall src, it | src in d && Spawns(g, src, it) ensures it in d {
        assert src in all && it in all;
        SpawnCarried(g, w, src, it);
      }
    }
    assert ItemSet(a.states[i].basis) <= d;
    ClosureWithin(g, ItemSet(a.states[i].basis), all, d);
    forall it | it in a.states[i].items ensures Carried(g, w, it) {
      assert it in all && it in d;
    }
  }

  lemma ClosureWithin(g: Grammar, k: set<Item>, c: set<Item>, d: set<Item>)
    requires IsClosure(g, k, c) && k <= d && Closed(g, d)
    ensures c <= d
  {
  }

  lemma SpawnCarried(g: Grammar, w: seq<Symbol>, src: Item, it: Item)
    requires WfGrammar(g) && Productive(g) && Carried(g, w, src) && Spawns(g, src, it)
    ensures Carried(g, w, it)
  {
    hide Productive, WfGrammar, Carries;
    var y, n: nat :| Carries(g, w, src, y, n);
    RuleIsFruitful(g, src.rule);
    var z, k := RestEnds(g, Rest(g, src));
    CarriesOn(g, w, src, it, y, n, z, k);
  }

  lemma {:induction false} KernelCarried(g: Grammar, lam: set<nat>, first: First, a: Automaton, w: seq<Symbol>, i: nat)
    requires WfGrammar(g) && Productive(g) && Partial(g, lam, first, a) && Reaches(g, a, w, i)
    ensures i < |a.states| && forall it | it in a.states[i].basis :: Carried(g, w, it)
    decreases |w|, 0
  {
    hide Productive, WfGrammar, Partial, Carried, Leads;
    if w == [] {
      StartBasis(g, lam, first, a);
      forall it | it in a.states[i].basis ensures Carried(g, w, it) {
        assert it in ItemSet(a.states[0].basis);
        StartCarries(g, it);
        CarriedBy(g, w, it, [], 0);
      }
    } else {
      var h: nat :| ReachesVia(g, a, w, h, i);
      ItemsCarried(g, lam, first, a, w[..|w| - 1], h);
      GotoCarried(g, a, w, h, i);
    }
  }

  lemma CarriedBy(g: Grammar, w: seq<Symbol>, it: Item, y: seq<Symbol>, n: nat)
    requires Carries(g, w, it, y, n)
    ensures Carried(g, w, it)
  {
  }

  lemma GotoCarried(g: Grammar, a: Automaton, w: seq<Symbol>, h: nat, i: nat)
    requires w != [] && h < |a.states| && Leads(g, a, h, w[|w| - 1], i)
    requires forall it | it in a.states[h].items :: Carried(g, w[..|w| - 1], it)
    ensures i < |a.states| && forall it | it in a.states[i].basis :: Carried(g, w, it)
  {
    hide Carries;
    var v, x := w[..|w| - 1], w[|w| - 1];
    forall it | it in a.states[i].basis ensures Carried(g, w, it) {
      assert it in ItemSet(a.states[i].basis);
      var src :| src in a.states[h].items && Next(g, src) == Some(x) && it == Advance(src);
      var y, n: nat :| Carries(g, v, src, y, n);
      CarriesPast(g, v, src, y, n);
      assert v + [x] == w;
    }
  }

  lemma StartCarries(g: Grammar, it: Item)
    requires it in StartItems(g)
    ensures Carries(g, [], it, [], 0)
  {
    var x := [Nonterminal(g.start)];
    assert [][..0] + x + [] == x;
  }

  lemma {:induction false} StateReached(g: Grammar, lam: set<nat>, first: First, a: Automaton, j: nat)
    returns (w: seq<Symbol>)
    requires Partial(g, lam, first, a) && j < |a.states|
    ensures Reaches(g, a, w, j)
    decreases j
  {
    hide StateOk, ConfigOk, ShiftOk, KeysOk;
    assert Automata.Placed(g, a, j);
    if j == 0 {
      w := [];
    } else {
      var i: nat, x :| i < j && Leads(g, a, i, x, j);
      w := StateReached(g, lam, first, a, i);
      ReachesPast(g, a, w, i, x, j);
      w := w + [x];
    }
  }

  lemma SeedFollows(g: Grammar, lam: set<nat>, first: First, a: Automaton, c: Cfg, t: nat)
    requires WfGrammar(g) && Productive(g) && FirstSetsOf(g, lam, first) && Partial(g, lam, first, a)
    requires IsCfg(a, c) && Seeded(g, lam, first, a, c, t)
    ensures MayFollow(g, a, c, t)
  {
    hide Productive, WfGrammar, Carries, Partial, FirstSetsOf, FirstOf;
    if SeededBy(g, lam, first, a.states[c.state].items, c.item, t) {
      var src :| src in a.states[c.state].items && Spawns(g, src, c.item) && t in FirstOf(lam, first, Rest(g, src));
      var w := StateReached(g, lam, first, a, c.state);
      ItemsCarried(g, lam, first, a, w, c.state);
      var y, n: nat :| Carries(g, w, src, y, n);
      RuleIsFruitful(g, src.rule);
      var z, k := RestBegins(g, lam, first, Rest(g, src), t);
      CarriesOn(g, w, src, c.item, y, n, z, k);
      assert ComesNext(z + y, t);
    } else {
      StartBasis(g, lam, first, a);
      assert c.item in ItemSet(a.states[0].basis);
      StartCarries(g, c.item);
      assert Reaches(g, a, [], 0) && ComesNext([], 0);
    }
  }

  lemma StartBasis(g: Grammar, lam: set<nat>, first: First, a: Automaton)
    requires Partial(g, lam, first, a) && |a.states| > 0
    ensures ItemSet(a.states[0].basis) == StartItems(g)
  {
    assert Automata.Placed(g, a, 0);
  }

  lemma LinkFollows(g: Grammar, lam: set<nat>, first: First, a: Automaton, c: Cfg, d: Cfg, t: nat)
    requires WfGrammar(g) && FirstSetsOf(g, lam, first) && MayFollow(g, a, c, t)
    requires ClosureLink(g, lam, c, d) || ShiftLink(g, a, c, d)
    ensures MayFollow(g, a, d, t)
  {
    hide Carries, Leads, Solution, BelowSolutions, WfSymbol;
    var w, y, n: nat :| Reaches(g, a, w, c.state) && Carries(g, w, c.item, y, n) && ComesNext(y, t);
    if ClosureLink(g, lam, c, d) {
      assert WfRule(g, g.rules[c.item.rule]);
      var k := RestVanishes(g, lam, Rest(g, c.item));
      CarriesOn(g, w, c.item, d.item, y, n, [], k);
      assert [] + y == y;
    } else {
      CarriesPast(g, w, c.item, y, n);
      ReachesPast(g, a, w, c.state, Next(g, c.item).value, d.state);
    }
  }

  ghost function Following(g: Grammar, a: Automaton): Follow {
    map c | c in a.fws :: set t: nat | t < g.nterminal && MayFollow(g, a, c, t)
  }

  lemma FollowingIsSolution(g: Grammar, lam: set<nat>, first: First, a: Automaton, fplp: Links)
    requires WfGrammar(g) && Productive(g) && FirstSetsOf(g, lam, first)
    requires Collection(g, lam, first, a) && ExactLinks(g, lam, a, fplp)
    ensures FollowSolution(a, fplp, Following(g, a))
  {
    hide Partial, Collection, Seeded, ClosureLink, ShiftLink, IsCfg, MayFollow, Productive, FirstSetsOf, WfGrammar;
    CollectionIsPartial(g, lam, first, a);
    BackLinksAreCfgs(g, lam, first, a);
    ExactLinksAreCfgs(g, lam, first, a, fplp);
    FirstsInDomain(g, lam, first);
    SeedsBounded(g, lam, first, a);
    var h := Following(g, a);
    forall c | c in h ensures a.fws[c] <= h[c] {
      SeedsAre(g, lam, first, a, c);
      forall t | t in a.fws[c] ensures t in h[c] {
        SeedFollows(g, lam, first, a, c, t);
      }
    }
    forall c | c in h ensures Propagated(h, fplp, c) {
      forall d, t | d in fplp[c] && t in h[c] ensures d in h && t in h[d] {
        LinkFollows(g, lam, first, a, c, d, t);
      }
    }
  }

  lemma FirstsInDomain(g: Grammar, lam: set<nat>, first: First)
    requires FirstSetsOf(g, lam, first)
    ensures Domain(g, first)
  {
  }

  /** Every lookahead of an item can follow. */
  lemma LookaheadFollows(g: Grammar, lam: set<nat>, first: First, a: Automaton, f: Follow, c: Cfg, t: nat)
    requires WfGrammar(g) && Productive(g) && FirstSetsOf(g, lam, first)
    requires Collection(g, lam, first, a) && ExactFollow(g, lam, a, f) && c in f && t in f[c]
    ensures MayFollow(g, a, c, t)
  {
    hide Collection, MayFollow, Productive, FirstSetsOf, WfGrammar, FollowSolution, ExactLinks;
    var fplp :| ExactLinks(g, lam, a, fplp) && LeastFollow(a, fplp, f);
    FollowingIsSolution(g, lam, first, a, fplp);
    assert FollowBelow(f, Following(g, a));
  }

  // ----- Whatever can follow is a lookahead -----

  /** Token `t` can come first in what `w` derives, or the end of the input if that may be nothing. */
  ghost predicate Ahead(lam: set<nat>, first: First, w: seq<Symbol>, t: nat) {
    t in FirstOf(lam, first, w) || (t == 0 && AllLambda(lam, w))
  }

  lemma {:induction false} AheadOfBoth(lam: set<nat>, first: First, v: seq<Symbol>, w: seq<Symbol>, t: nat)
    ensures Ahead(lam, first, v + w, t) <==>
      t in FirstOf(lam, first, v) || (AllLambda(lam, v) && Ahead(lam, first, w, t))
  {
    if v == [] {
      assert v + w == w;
    } else {
      AheadOfBoth(lam, first, v[1..], w, t);
      assert (v + w)[1..] == v[1..] + w;
      AllLambdaCons(lam, v);
      AllLambdaCons(lam, v + w);
    }
  }

  lemma AllLambdaCons(lam: set<nat>, w: seq<Symbol>)
    requires w != []
    ensures AllLambda(lam, w) <==> SymbolLambda(lam, w[0]) && AllLambda(lam, w[1..])
  {
    assert forall i | 1 <= i < |w| :: w[i] == w[1..][i - 1];
  }

  /** A nonterminal lets everything come first that its rule does. */
  lemma AheadOfRule(g: Grammar, lam: set<nat>, first: First, r: nat, u: seq<Symbol>, y: seq<Symbol>, t: nat)
    requires FirstSetsOf(g, lam, first) && EmptyRuleClosed(g) && r < |g.rules|
    requires Ahead(lam, first, u + g.rules[r].rhs + y, t)
    ensures Ahead(lam, first, u + [Nonterminal(g.rules[r].lhs)] + y, t)
  {
    hide BelowSolutions, Ahead;
    var x, body := [Nonterminal(g.rules[r].lhs)], g.rules[r].rhs;
    assert RuleSatisfied(g, lam, first, r);
    assert u + body + y == u + (body + y) && u + x + y == u + (x + y);
    AheadOfBoth(lam, first, u, body + y, t);
    AheadOfBoth(lam, first, u, x + y, t);
    AheadOfBoth(lam, first, body, y, t);
    AheadOfBoth(lam, first, x, y, t);
    assert FirstOf(lam, first, body) <= FirstOf(lam, first, x);
    if AllLambda(lam, body) {
      assert forall i | 0 <= i < |body| :: SymbolLambda(lam, body[i]);
      assert HasEmptyRule(g, g.rules[r].lhs);
    }
  }

  /** Everything that the construction has settled. */
  ghost predicate Built(g: Grammar, lam: set<nat>, first: First, a: Automaton, f: Follow) {
    && WfGrammar(g) && FirstSetsOf(g, lam, first) && EmptyRuleClosed(g)
    && Collection(g, lam, first, a) && Flows(g, lam, first, a, f)
  }

  /** The item is in state `h`, and all that can come first in `w` are its lookaheads. */
  ghost predicate WaitsFor(lam: set<nat>, first: First, a: Automaton, f: Follow, h: nat, it: Item, w: seq<Symbol>) {
    && h < |a.states| && it in a.states[h].items && Cfg(h, it) in f
    && forall t | Ahead(lam, first, w, t) :: t in f[Cfg(h, it)]
  }

  lemma {:induction false} Waits(g: Grammar, lam: set<nat>, first: First, a: Automaton, f: Follow, v: seq<Symbol>,
                                 x: nat, w: seq<Symbol>, n: nat, h: nat, r: nat)
    requires Built(g, lam, first, a, f) && Reaches(g, a, v, h) && r < |g.rules| && g.rules[r].lhs == x
    requires Derives(g, [Nonterminal(g.start)], v + [Nonterminal(x)] + w, n)
    ensures WaitsFor(lam, first, a, f, h, Item(r, 0), w)
    decreases n, 0, 0
  {
    hide Built, WaitsFor, Ahead, Reaches;
    var s, form := [Nonterminal(g.start)], v + [Nonterminal(x)] + w;
    if n == 0 {
      assert form == s && |form| == 1 && v == [] && w == [] && form[0] == Nonterminal(x);
      StartWaits(g, lam, first, a, f, h, r);
    } else {
      var u :| Derives(g, s, u, n - 1) && Rewrites(g, u, form);
      var before, q: nat, y :| RewritesAt(g, u, form, before, q, y);
      var b, body := [Nonterminal(g.rules[q].lhs)], g.rules[q].rhs;
      if |v| >= |before| {
        var d := |v| - |before|;
        InTheRule(v, x, w, before, body, y);
        WaitsAlong(g, lam, first, a, f, before, q, d, y, n - 1, h);
        SpawnWaits(g, lam, first, a, f, h, Item(q, d), Item(r, 0), y);
      } else {
        var z := before[|v| + 1..];
        InFront(v, x, w, before, body, y);
        assert before + b + y == v + [Nonterminal(x)] + (z + b + y);
        Waits(g, lam, first, a, f, v, x, z + b + y, n - 1, h, r);
        MoreAhead(g, lam, first, a, f, h, Item(r, 0), q, z, y);
      }
    }
  }

  lemma MoreAhead(g: Grammar, lam: set<nat>, first: First, a: Automaton, f: Follow, h: nat, it: Item, q: nat,
                  z: seq<Symbol>, y: seq<Symbol>)
    requires Built(g, lam, first, a, f) && q < |g.rules|
    requires WaitsFor(lam, first, a, f, h, it, z + [Nonterminal(g.rules[q].lhs)] + y)
    ensures WaitsFor(lam, first, a, f, h, it, z + g.rules[q].rhs + y)
  {
    hide Ahead, Flows, Collection;
    forall t | Ahead(lam, first, z + g.rules[q].rhs + y, t) ensures t in f[Cfg(h, it)] {
      AheadOfRule(g, lam, first, q, z, y, t);
    }
  }

  lemma InTheRule(v: seq<Symbol>, x: nat, w: seq<Symbol>, before: seq<Symbol>, body: seq<Symbol>, y: seq<Symbol>)
    requires v + [Nonterminal(x)] + w == before + body + y && |v| >= |before| && TerminalsOnly(y)
    ensures var d := |v| - |before|;
      d < |body| && body[d] == Nonterminal(x) && v == before + body[..d] && w == body[d + 1..] + y
  {
    var form, d := v + [Nonterminal(x)] + w, |v| - |before|;
    assert form[|v|] == Nonterminal(x) && form == before + body + y;
    assert forall i | |before| + |body| <= i < |form| :: form[i] == y[i - |before| - |body|];
    assert body[d] == form[|v|];
    assert v == form[..|v|] == before + body[..d];
    assert w == form[|v| + 1..] == body[d + 1..] + y;
  }

  lemma InFront(v: seq<Symbol>, x: nat, w: seq<Symbol>, before: seq<Symbol>, body: seq<Symbol>, y: seq<Symbol>)
    requires v + [Nonterminal(x)] + w == before + body + y && |v| < |before|
    ensures before == v + [Nonterminal(x)] + before[|v| + 1..] && w == before[|v| + 1..] + body + y
  {
    var form := v + [Nonterminal(x)] + w;
    assert before == form[..|before|];
    assert before[|v|] == form[|v|] == Nonterminal(x) && before[..|v|] == form[..|v|] == v;
    assert w == form[|v| + 1..];
  }

  lemma StartWaits(g: Grammar, lam: set<nat>, first: First, a: Automaton, f: Follow, h: nat, r: nat)
    requires Built(g, lam, first, a, f) && Reaches(g, a, [], h) && r < |g.rules| && g.rules[r].lhs == g.start
    ensures WaitsFor(lam, first, a, f, h, Item(r, 0), [])
  {
    hide FirstSetsOf, EmptyRuleClosed, Partial;
    CollectionIsPartial(g, lam, first, a);
    StartBasis(g, lam, first, a);
    assert Item(r, 0) in ItemSet(a.states[0].basis);
    BasisInItems(g, lam, first, a, 0, Item(r, 0));
    assert IsCfg(a, Cfg(0, Item(r, 0)));
    assert Seeded(g, lam, first, a, Cfg(0, Item(r, 0)), 0);
  }

  lemma BasisInItems(g: Grammar, lam: set<nat>, first: First, a: Automaton, i: nat, it: Item)
    requires Partial(g, lam, first, a) && i < |a.states| && it in ItemSet(a.states[i].basis)
    ensures it in a.states[i].items
  {
    assert StateOk(g, a.states[i]);
    assert it in ItemSet(a.states[i].items);
  }

  /** An item brings in the rules of the nonterminal behind its dot, with what comes after it. */
  lemma SpawnWaits(g: Grammar, lam: set<nat>, first: First, a: Automaton, f: Follow, h: nat, src: Item, it: Item,
                   y: seq<Symbol>)
    requires Built(g, lam, first, a, f) && WaitsFor(lam, first, a, f, h, src, y) && Spawns(g, src, it)
    ensures WaitsFor(lam, first, a, f, h, it, Rest(g, src) + y)
  {
    hide FirstSetsOf, EmptyRuleClosed, Partial, Ahead;
    CollectionIsPartial(g, lam, first, a);
    ItemsClosed(g, lam, first, a, h, src, it);
    var c, d := Cfg(h, src), Cfg(h, it);
    assert IsCfg(a, d) && IsCfg(a, c);
    forall t | Ahead(lam, first, Rest(g, src) + y, t) ensures t in f[d] {
      AheadOfBoth(lam, first, Rest(g, src), y, t);
      if t in FirstOf(lam, first, Rest(g, src)) {
        assert SeededBy(g, lam, first, a.states[h].items, it, t);
        assert Seeded(g, lam, first, a, d, t);
      } else {
        assert ClosureLink(g, lam, c, d);
      }
    }
  }

  lemma ItemsClosed(g: Grammar, lam: set<nat>, first: First, a: Automaton, i: nat, src: Item, it: Item)
    requires Partial(g, lam, first, a) && i < |a.states| && src in a.states[i].items && Spawns(g, src, it)
    ensures it in a.states[i].items
  {
    assert StateOk(g, a.states[i]);
    assert src in ItemSet(a.states[i].items);
    assert it in ItemSet(a.states[i].items);
  }

  /** The dot moves along with the state. */
  lemma {:induction false} WaitsAlong(g: Grammar, lam: set<nat>, first: First, a: Automaton, f: Follow,
                                      v: seq<Symbol>, q: nat, d: nat, y: seq<Symbol>, n: nat, h: nat)
    requires Built(g, lam, first, a, f) && q < |g.rules| && d <= |g.rules[q].rhs|
    requires Reaches(g, a, v + g.rules[q].rhs[..d], h)
    requires Derives(g, [Nonterminal(g.start)], v + [Nonterminal(g.rules[q].lhs)] + y, n)
    ensures WaitsFor(lam, first, a, f, h, Item(q, d), y)
    decreases n, 1, d
  {
    hide Built, WaitsFor, Derives, Leads;
    var body := g.rules[q].rhs;
    if d == 0 {
      assert v + body[..0] == v;
      Waits(g, lam, first, a, f, v, g.rules[q].lhs, y, n, h, q);
    } else {
      var w := v + body[..d];
      var i: nat :| ReachesVia(g, a, w, i, h);
      assert w[..|w| - 1] == v + body[..d - 1] && w[|w| - 1] == body[d - 1];
      WaitsAlong(g, lam, first, a, f, v, q, d - 1, y, n, i);
      AdvanceWaits(g, lam, first, a, f, i, Item(q, d - 1), h, y);
    }
  }

  lemma AdvanceWaits(g: Grammar, lam: set<nat>, first: First, a: Automaton, f: Follow, i: nat, it: Item, h: nat,
                     y: seq<Symbol>)
    requires Built(g, lam, first, a, f) && WaitsFor(lam, first, a, f, i, it, y) && Next(g, it).Some?
    requires Leads(g, a, i, Next(g, it).value, h)
    ensures WaitsFor(lam, first, a, f, h, Advance(it), y)
  {
    hide FirstSetsOf, EmptyRuleClosed, Partial, Ahead;
    CollectionIsPartial(g, lam, first, a);
    assert Advance(it) in ItemSet(a.states[h].basis);
    BasisInItems(g, lam, first, a, h, Advance(it));
    assert IsCfg(a, Cfg(h, Advance(it)));
    assert ShiftLink(g, a, Cfg(i, it), Cfg(h, Advance(it)));
  }

  lemma FollowingIsLookahead(g: Grammar, lam: set<nat>, first: First, a: Automaton, f: Follow, c: Cfg, t: nat)
    requires Built(g, lam, first, a, f) && MayFollow(g, a, c, t)
    ensures c in f && t in f[c]
  {
    hide Built, Derives, Reaches;
    var w, y, n: nat :| Reaches(g, a, w, c.state) && Carries(g, w, c.item, y, n) && ComesNext(y, t);
    var v, body := w[..|w| - c.item.dot], g.rules[c.item.rule].rhs;
    assert w == v + body[..c.item.dot];
    WaitsAlong(g, lam, first, a, f, v, c.item.rule, c.item.dot, y, n, c.state);
    assert Ahead(lam, first, y, t);
  }

  /** The lookaheads of an item are exactly the tokens that come after its left-hand side in a right
      sentential form with a viable prefix that leads to the state and ends with the item.  Nonterminals
      that derive nothing have empty rules, and all nonterminals in rules derive terminals. */
  lemma LookaheadsAreExact(g: Grammar, lam: set<nat>, first: First, a: Automaton, f: Follow, c: Cfg, t: nat)
    requires WfGrammar(g) && FirstSetsOf(g, lam, first) && EmptyRuleClosed(g) && Productive(g)
    requires Collection(g, lam, first, a) && ExactFollow(g, lam, a, f) && c in f
    ensures t in f[c] <==> MayFollow(g, a, c, t)
  {
    hide Collection, MayFollow, Productive, FirstSetsOf, WfGrammar, EmptyRuleClosed, ExactLinks, LeastFollow;
    if t in f[c] {
      LookaheadFollows(g, lam, first, a, f, c, t);
    }
    if MayFollow(g, a, c, t) {
      var fplp :| ExactLinks(g, lam, a, fplp) && LeastFollow(a, fplp, f);
      LeastFollowFlows(g, lam, first, a, fplp, f);
      FollowingIsLookahead(g, lam, first, a, f, c, t);
    }
  }
}
