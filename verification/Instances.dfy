/** Grammars on which the generated parsers do what their general conditions say can happen. */
module Instances {
  import opened Grammars
  import opened Derivations
  import opened FirstSets
  import opened Automata
  import opened Canonical
  import opened FollowSets
  import opened Actions
  import opened Compression
  import opened Driver
  import opened Machines
  import opened StackInvariants
  import opened Steps
  import opened Soundness
  import opened OneCall
  import opened Completeness
  import opened Lookaheads
  import opened Products

  // ----- Counting reduces -----

  lemma {:induction false} CountTwo(ap: seq<Action>, r: nat, i: nat, j: nat)
    requires i < j < |ap| && IsReduceBy(ap[i], r) && IsReduceBy(ap[j], r)
    ensures Count(ap, r) >= 2
  {
    if i > 0 {
      CountTwo(ap[1..], r, i - 1, j - 1);
    } else {
      CountZero(ap[1..], r);
      assert ap[1..][j - 1] == ap[j];
    }
  }

  lemma {:induction false} CountOne(ap: seq<Action>, r: nat)
    requires forall i, j :: 0 <= i < j < |ap| && IsReduceBy(ap[i], r) ==> !IsReduceBy(ap[j], r)
    ensures Count(ap, r) <= 1
  {
    if ap != [] {
      if IsReduceBy(ap[0], r) {
        forall act | act in ap[1..] ensures !IsReduceBy(act, r) {
          var j :| 0 <= j < |ap[1..]| && ap[1..][j] == act;
          assert ap[j + 1] == act;
        }
        CountZero(ap[1..], r);
      } else {
        assert forall i | 0 <= i < |ap[1..]| :: ap[1..][i] == ap[i + 1];
        CountOne(ap[1..], r);
      }
    }
  }

  /** Two actions by one rule and one by another: the first is the more frequent. */
  lemma MoreFrequent(ap: seq<Action>, x: Action, y: Action, z: Action)
    requires UniqueLive(ap) && x in ap && y in ap && x != y
    requires IsReduceBy(x, x.target) && IsReduceBy(y, x.target)
    requires forall act | act in ap && IsReduceBy(act, z.target) :: act == z
    ensures Count(ap, x.target) > Count(ap, z.target)
  {
    var i :| 0 <= i < |ap| && ap[i] == x;
    var j :| 0 <= j < |ap| && ap[j] == y;
    CountTwo(ap, x.target, if i < j then i else j, if i < j then j else i);
    forall k, l | 0 <= k < l < |ap| && IsReduceBy(ap[k], z.target) ensures !IsReduceBy(ap[l], z.target) {
      assert ap[k] in ap && ap[l] in ap;
    }
    CountOne(ap, z.target);
  }

  /** The decision on token `t`, whose chain of fallbacks ends within `n` steps. */
  ghost predicate DecidesOn(g: Grammar, ap: seq<Action>, t: nat, n: nat, e: Effect) {
    ChainEnds(g.fallback, t, n) && Decide(g, ap, t, n) == e
  }

  // ----- The state after the first token -----

  /** The items of state 0 are those before the first symbol of some rules. */
  ghost predicate StartsWith(g: Grammar, rules: set<nat>) {
    IsClosure(g, StartItems(g), FrontItems(rules))
  }

  ghost function FrontItems(rules: set<nat>): set<Item> {
    set r | r in rules :: Item(r, 0)
  }

  ghost predicate HasItems(a: Automaton, i: nat, c: set<Item>) {
    i < |a.states| && ItemSet(a.states[i].items) == c
  }

  lemma ItemsOf(a: Automaton, i: nat, c: set<Item>)
    requires HasItems(a, i, c)
    ensures i < |a.states| && forall it :: it in a.states[i].items <==> it in c
  {
    assert forall it :: it in a.states[i].items <==> it in ItemSet(a.states[i].items);
  }

  /** A lookahead seeded in state 0 reaches the item after its first symbol. */
  lemma SeedArrives(m: Machine, q: Sets, aps0: seq<seq<Action>>, compress: bool,
                    r: nat, x: Symbol, j: nat, src: Item, t: nat)
    requires Generated(m, q, aps0, compress) && Leads(m.g, m.a, 0, x, j)
    requires Item(r, 0) in m.a.states[0].items && Next(m.g, Item(r, 0)) == Some(x) && Item(r, 1) in m.a.states[j].items
    requires src in m.a.states[0].items && Spawns(m.g, src, Item(r, 0)) && t in FirstOf(q.lam, q.first, Rest(m.g, src))
    ensures Cfg(j, Item(r, 1)) in q.f && t in q.f[Cfg(j, Item(r, 1))]
  {
    hide Usable, ActionTable, FirstSetsOf, ExactFollow, ListMade, Collection, FirstOf;
    GeneratedFlows(m, q, aps0, compress);
    var c, d := Cfg(0, Item(r, 0)), Cfg(j, Item(r, 1));
    assert IsCfg(m.a, c) && IsCfg(m.a, d);
    assert SeededBy(m.g, q.lam, q.first, m.a.states[0].items, Item(r, 0), t);
    assert Seeded(m.g, q.lam, q.first, m.a, c, t);
    assert ShiftLink(m.g, m.a, c, d);
  }

  // ----- Ways through the automaton -----

  /** The state behind symbol `x` has the items `c`. */
  lemma GotoItems(m: Machine, q: Sets, aps0: seq<seq<Action>>, compress: bool, i: nat, it: Item, c0: set<Item>,
                  c: set<Item>)
    returns (j: nat)
    requires Generated(m, q, aps0, compress) && HasItems(m.a, i, c0) && it in c0 && Next(m.g, it).Some?
    requires IsClosure(m.g, GotoSet(m.g, c0, Next(m.g, it).value), c)
    ensures Leads(m.g, m.a, i, Next(m.g, it).value, j) && HasItems(m.a, j, c)
    ensures forall s: nat | Spells(Next(m.g, it).value, s) :: IsRaw(m.g, m.a, q.f, i, Action(s, Shift, j))
  {
    hide Usable, ActionTable, FirstSetsOf, ExactFollow, ListMade, ConfigOk, ShiftOk, KeysOk, Done, GotoSet, IsClosure,
         Automata.Placed;
    ItemsOf(m.a, i, c0);
    j := Transition(m, q, aps0, compress, i, it);
    assert StateOk(m.g, m.a.states[j]);
    ClosureUnique(m.g, ItemSet(m.a.states[j].basis), c, ItemSet(m.a.states[j].items));
  }

  /** A lookahead seeded in a state. */
  lemma SeedIn(m: Machine, q: Sets, aps0: seq<seq<Action>>, compress: bool, i: nat, c: set<Item>, src: Item, it: Item,
               t: nat)
    requires Generated(m, q, aps0, compress) && HasItems(m.a, i, c) && src in c && it in c
    requires Spawns(m.g, src, it) && t in FirstOf(q.lam, q.first, Rest(m.g, src))
    ensures Cfg(i, it) in q.f && t in q.f[Cfg(i, it)]
  {
    hide Usable, ActionTable, FirstSetsOf, ExactFollow, ListMade, Collection, FirstOf;
    GeneratedFlows(m, q, aps0, compress);
    ItemsOf(m.a, i, c);
    assert IsCfg(m.a, Cfg(i, it));
    assert Seeded(m.g, q.lam, q.first, m.a, Cfg(i, it), t);
  }

  /** A lookahead goes along when the dot moves. */
  lemma GoesAlong(m: Machine, q: Sets, aps0: seq<seq<Action>>, compress: bool, i: nat, it: Item, j: nat, t: nat)
    requires Generated(m, q, aps0, compress) && Cfg(i, it) in q.f && t in q.f[Cfg(i, it)]
    requires i < |m.a.states| && it in m.a.states[i].items && Next(m.g, it).Some?
    requires Leads(m.g, m.a, i, Next(m.g, it).value, j) && Advance(it) in m.a.states[j].items
    ensures Cfg(j, Advance(it)) in q.f && t in q.f[Cfg(j, Advance(it))]
  {
    hide Usable, ActionTable, FirstSetsOf, ExactFollow, ListMade, Collection, Leads;
    GeneratedFlows(m, q, aps0, compress);
    assert IsCfg(m.a, Cfg(i, it));
    var d := Cfg(j, Advance(it));
    LeadsTo(m.a, m.g, i, Next(m.g, it).value, j);
    assert IsCfg(m.a, d);
    assert ShiftLink(m.g, m.a, Cfg(i, it), d);
  }

  lemma StartIs(m: Machine, q: Sets, aps0: seq<seq<Action>>, compress: bool, c: set<Item>)
    requires Generated(m, q, aps0, compress) && IsClosure(m.g, StartItems(m.g), c)
    ensures HasItems(m.a, 0, c)
  {
    StartStateItems(m, q, aps0, compress, c);
  }

  // ----- A wildcard that steals a reduce -----

  /** s ::= a T.  s ::= a U.  s ::= b W.  a ::= X.  b ::= X.  T, U, W, X are terminals 1 to 4 and
      W is the wildcard; a, b, error and s are nonterminals 5 to 8. */
  function StealingGrammar(): Grammar {
    Grammar(5, 9,
            [Rule(8, [Nonterminal(5), Terminal(1)], None), Rule(8, [Nonterminal(5), Terminal(2)], None),
             Rule(8, [Nonterminal(6), Terminal(3)], None), Rule(5, [Terminal(4)], None), Rule(6, [Terminal(4)], None)],
            8, 7, [-1, -1, -1, -1, -1], [UnknownAssoc, UnknownAssoc, UnknownAssoc, UnknownAssoc, UnknownAssoc],
            [0, 0, 0, 0, 0], Some(3))
  }

  lemma StealingIsWf()
    ensures WfGrammar(StealingGrammar())
  {
    var g := StealingGrammar();
    assert g.rules[0].lhs == g.start;
    assert forall r | 0 <= r < |g.rules| :: WfRule(g, g.rules[r]);
  }

  ghost predicate Stealing(m: Machine, q: Sets, aps0: seq<seq<Action>>) {
    Generated(m, q, aps0, true) && m.g == StealingGrammar()
  }

  ghost function StealingStart(): set<Item> {
    {Item(0, 0), Item(1, 0), Item(2, 0), Item(3, 0), Item(4, 0)}
  }

  lemma StealingClosure()
    ensures IsClosure(StealingGrammar(), StartItems(StealingGrammar()), StealingStart())
  {
    var g, c := StealingGrammar(), StealingStart();
    assert StartItems(g) == {Item(0, 0), Item(1, 0), Item(2, 0)};
    forall d: set<Item> | StartItems(g) <= d && Closed(g, d) ensures c <= d {
      assert Item(0, 0) in d && Item(2, 0) in d;
      assert Spawns(g, Item(0, 0), Item(3, 0)) && Spawns(g, Item(2, 0), Item(4, 0));
    }
  }

  /** After X both complete items wait, each with its own lookaheads. */
  lemma StealingState(m: Machine, q: Sets, aps0: seq<seq<Action>>) returns (j: nat)
    requires Stealing(m, q, aps0)
    ensures Leads(m.g, m.a, 0, Terminal(4), j) && HasItems(m.a, 0, StealingStart())
    ensures HasItems(m.a, j, {Item(3, 1), Item(4, 1)})
  {
    hide Usable, ActionTable, FirstSetsOf, ExactFollow, ListMade, Collection, IsRaw, IsClosure;
    StealingClosure();
    StartStateItems(m, q, aps0, true, StealingStart());
    ItemsOf(m.a, 0, StealingStart());
    j := Transition(m, q, aps0, true, 0, Item(3, 0));
    var goto_ := GotoSet(m.g, StealingStart(), Terminal(4));
    assert goto_ == {Item(3, 1), Item(4, 1)} by {
      assert Advance(Item(3, 0)) in goto_ && Advance(Item(4, 0)) in goto_;
    }
    GotoState(m, q, aps0, true, 0, Terminal(4), j);
  }

  ghost function StealingBound(): First {
    map[8 := {0}, 5 := {1, 2}, 6 := {3}]
  }

  lemma StealingFollowBound(lam: set<nat>, first: First)
    ensures FollowBound(StealingGrammar(), lam, first, StealingBound())
  {
    var g, b := StealingGrammar(), StealingBound();
    forall r, d | 0 <= r < |g.rules| && 0 <= d < |g.rules[r].rhs| ensures BoundAfter(g, lam, first, b, r, d) {
      if g.rules[r].rhs[d].Nonterminal? {
        var rest := g.rules[r].rhs[d + 1..];
        assert rest == [g.rules[r].rhs[1]];
        assert FirstOf(lam, first, rest) == {rest[0].index};
        assert !SymbolLambda(lam, rest[0]);
      }
    }
  }

  lemma StealingFollow(m: Machine, q: Sets, aps0: seq<seq<Action>>, j: nat)
    requires Stealing(m, q, aps0)
    requires Leads(m.g, m.a, 0, Terminal(4), j) && HasItems(m.a, 0, StealingStart())
    requires HasItems(m.a, j, {Item(3, 1), Item(4, 1)})
    ensures Cfg(j, Item(3, 1)) in q.f && q.f[Cfg(j, Item(3, 1))] == {1, 2}
    ensures Cfg(j, Item(4, 1)) in q.f && q.f[Cfg(j, Item(4, 1))] == {3}
  {
    hide Usable, ActionTable, FirstSetsOf, ExactFollow, ListMade, Collection, Leads, HasItems, FirstOf, FollowBound;
    var g := m.g;
    ItemsOf(m.a, 0, StealingStart());
    ItemsOf(m.a, j, {Item(3, 1), Item(4, 1)});
    StealingRests(q.lam, q.first);
    SeedArrives(m, q, aps0, true, 3, Terminal(4), j, Item(0, 0), 1);
    SeedArrives(m, q, aps0, true, 3, Terminal(4), j, Item(1, 0), 2);
    SeedArrives(m, q, aps0, true, 4, Terminal(4), j, Item(2, 0), 3);
    StealingFollowBound(q.lam, q.first);
    LookaheadsWithin(g, q.lam, q.first, m.a, q.f, StealingBound());
  }

  lemma StealingRests(lam: set<nat>, first: First)
    ensures var g := StealingGrammar();
      && 1 in FirstOf(lam, first, Rest(g, Item(0, 0))) && 2 in FirstOf(lam, first, Rest(g, Item(1, 0)))
      && 3 in FirstOf(lam, first, Rest(g, Item(2, 0)))
  {
    var g := StealingGrammar();
    assert Rest(g, Item(0, 0)) == [Terminal(1)] && Rest(g, Item(1, 0)) == [Terminal(2)];
    assert Rest(g, Item(2, 0)) == [Terminal(3)];
  }

  /** The actions of the state after X. */
  lemma StealingActions(m: Machine, q: Sets, aps0: seq<seq<Action>>, j: nat, act: Action)
    requires Stealing(m, q, aps0)
    requires Leads(m.g, m.a, 0, Terminal(4), j) && HasItems(m.a, 0, StealingStart())
    requires HasItems(m.a, j, {Item(3, 1), Item(4, 1)})
    ensures IsRaw(m.g, m.a, q.f, j, act) <==> act in {Action(1, Reduce, 3), Action(2, Reduce, 3), Action(3, Reduce, 4)}
  {
    hide Usable, ActionTable, FirstSetsOf, ExactFollow, ListMade, Collection, Leads, FirstOf;
    StealingFollow(m, q, aps0, j);
    ItemsOf(m.a, j, {Item(3, 1), Item(4, 1)});
    assert Item(0, 0) !in {Item(3, 1), Item(4, 1)} && Item(0, 0) in StealingStart();
    if IsRaw(m.g, m.a, q.f, j, act) {
      RawCases(m, q, aps0, true, j, act);
    }
  }

  /** In every compressed parser for the grammar token T, which reduces by a ::= X after X, reduces
      by b ::= X there after compression: the action of the wildcard is found before the default. */
  lemma WildcardSteals(m: Machine, q: Sets, aps0: seq<seq<Action>>) returns (j: nat)
    requires Stealing(m, q, aps0)
    ensures Leads(m.g, m.a, 0, Terminal(4), j) && j < |m.aps| == |aps0|
    ensures DecidesOn(StealingGrammar(), aps0[j], 1, 0, Effect(Reduce, 3))
    ensures DecidesOn(StealingGrammar(), m.aps[j], 1, 0, Effect(Reduce, 4))
  {
    hide Usable, FirstSetsOf, ExactFollow, Collection, Leads, IsRaw, HasItems, UniqueLive, ListMade, DecidesOn;
    j := StealingState(m, q, aps0);
    GeneratedIsUsable(m, q, aps0, true);
    LeadsTo(m.a, m.g, 0, Terminal(4), j);
    assert ActionsFor(m.g, m.a, q.f, j, aps0[j]) && ListMade(m.g, aps0[j], m.aps[j], true);
    forall act
      ensures IsRaw(m.g, m.a, q.f, j, act)
         <==> act in {Action(1, Reduce, 3), Action(2, Reduce, 3), Action(3, Reduce, 4)}
    {
      StealingActions(m, q, aps0, j, act);
    }
    NoConflictKeepsAll(m.g, m.a, q.f, j, aps0[j]);
    StolenDecisions(aps0[j], m.aps[j]);
  }

  lemma StolenDecisions(ap0: seq<Action>, ap: seq<Action>)
    requires UniqueLive(ap0) && ListMade(StealingGrammar(), ap0, ap, true)
    requires forall act ::
      act in ap0 && Live(act) <==> act in {Action(1, Reduce, 3), Action(2, Reduce, 3), Action(3, Reduce, 4)}
    ensures DecidesOn(StealingGrammar(), ap0, 1, 0, Effect(Reduce, 3))
    ensures DecidesOn(StealingGrammar(), ap, 1, 0, Effect(Reduce, 4))
  {
    hide UniqueLive, MostFrequent, UsesWildcard, CompressedBy;
    var g, x, y, z := StealingGrammar(), Action(1, Reduce, 3), Action(2, Reduce, 3), Action(3, Reduce, 4);
    assert x in ap0 && y in ap0 && z in ap0;
    NoShifts(g, ap0);
    var r: nat :| CompressedBy(g, ap0, ap, r);
    MoreFrequent(ap0, x, y, z);
    FrequentRule(g, ap0, ap, r, x, z);
    LiveOnUnique(ap0, x);
    LiveOnUnique(ap0, z);
    OwnAfter(g, ap0, ap, 3, 1);
    WildcardAfter(g, ap0, ap, 3, 1);
  }

  lemma LeadsTo(a: Automaton, g: Grammar, i: nat, x: Symbol, j: nat)
    requires Leads(g, a, i, x, j)
    ensures i < |a.states| && j < |a.states|
  {
  }

  lemma NoShifts(g: Grammar, ap: seq<Action>)
    requires forall act | act in ap && Live(act) :: act.kind == Reduce
    ensures !UsesWildcard(g, ap)
  {
    assert forall k | 0 <= k < |ap| :: ap[k] in ap;
  }

  /** The rule that becomes the default is the more frequent one. */
  lemma FrequentRule(g: Grammar, ap0: seq<Action>, ap: seq<Action>, r: nat, x: Action, z: Action)
    requires CompressedBy(g, ap0, ap, r) && Count(ap0, x.target) > Count(ap0, z.target)
    requires forall act | act in ap0 && act.kind == Reduce :: act.target == x.target || act.target == z.target
    ensures r == x.target
  {
    HasReduceBy(ap0, r);
    CountIsSize(ap0, x.target);
    CountIsSize(ap0, z.target);
  }

  // ----- A fallback that turns a reduce into a shift -----

  /** s ::= a A.  s ::= X B.  a ::= X.  A, B, X are terminals 1 to 3 and A falls back to B; a, error
      and s are nonterminals 4 to 6. */
  function FallingGrammar(): Grammar {
    Grammar(4, 7,
            [Rule(6, [Nonterminal(4), Terminal(1)], None), Rule(6, [Terminal(3), Terminal(2)], None),
             Rule(4, [Terminal(3)], None)],
            6, 5, [-1, -1, -1, -1], [UnknownAssoc, UnknownAssoc, UnknownAssoc, UnknownAssoc], [0, 2, 0, 0], None)
  }

  lemma FallingIsWf()
    ensures WfGrammar(FallingGrammar())
  {
    var g := FallingGrammar();
    assert g.rules[0].lhs == g.start;
    assert forall r | 0 <= r < |g.rules| :: WfRule(g, g.rules[r]);
  }

  ghost predicate Falling(m: Machine, q: Sets, aps0: seq<seq<Action>>) {
    Generated(m, q, aps0, true) && m.g == FallingGrammar()
  }

  ghost function FallingStart(): set<Item> {
    {Item(0, 0), Item(1, 0), Item(2, 0)}
  }

  lemma FallingClosure()
    ensures IsClosure(FallingGrammar(), StartItems(FallingGrammar()), FallingStart())
  {
    var g, c := FallingGrammar(), FallingStart();
    assert StartItems(g) == {Item(0, 0), Item(1, 0)};
    forall d: set<Item> | StartItems(g) <= d && Closed(g, d) ensures c <= d {
      assert Item(0, 0) in d;
      assert Spawns(g, Item(0, 0), Item(2, 0));
    }
  }

  lemma FallingState(m: Machine, q: Sets, aps0: seq<seq<Action>>) returns (j: nat)
    requires Falling(m, q, aps0)
    ensures Leads(m.g, m.a, 0, Terminal(3), j) && HasItems(m.a, 0, FallingStart())
    ensures HasItems(m.a, j, {Item(1, 1), Item(2, 1)})
  {
    hide Usable, ActionTable, FirstSetsOf, ExactFollow, ListMade, Collection, IsRaw, IsClosure;
    FallingClosure();
    StartStateItems(m, q, aps0, true, FallingStart());
    ItemsOf(m.a, 0, FallingStart());
    j := Transition(m, q, aps0, true, 0, Item(2, 0));
    var goto_ := GotoSet(m.g, FallingStart(), Terminal(3));
    assert goto_ == {Item(1, 1), Item(2, 1)} by {
      assert Advance(Item(1, 0)) in goto_ && Advance(Item(2, 0)) in goto_;
    }
    GotoState(m, q, aps0, true, 0, Terminal(3), j);
  }

  ghost function FallingBound(): First {
    map[6 := {0}, 4 := {1}]
  }

  lemma FallingFollowBound(lam: set<nat>, first: First)
    ensures FollowBound(FallingGrammar(), lam, first, FallingBound())
  {
    var g, b := FallingGrammar(), FallingBound();
    forall r, d | 0 <= r < |g.rules| && 0 <= d < |g.rules[r].rhs| ensures BoundAfter(g, lam, first, b, r, d) {
      if g.rules[r].rhs[d].Nonterminal? {
        var rest := g.rules[r].rhs[d + 1..];
        assert rest == [Terminal(1)];
        assert FirstOf(lam, first, rest) == {1} && !SymbolLambda(lam, rest[0]);
      }
    }
  }

  lemma FallingFollow(m: Machine, q: Sets, aps0: seq<seq<Action>>, j: nat)
    requires Falling(m, q, aps0)
    requires Leads(m.g, m.a, 0, Terminal(3), j) && HasItems(m.a, 0, FallingStart())
    requires HasItems(m.a, j, {Item(1, 1), Item(2, 1)})
    ensures Cfg(j, Item(2, 1)) in q.f && q.f[Cfg(j, Item(2, 1))] == {1}
  {
    hide Usable, ActionTable, FirstSetsOf, ExactFollow, ListMade, Collection, Leads, HasItems, FirstOf, FollowBound;
    ItemsOf(m.a, 0, FallingStart());
    ItemsOf(m.a, j, {Item(1, 1), Item(2, 1)});
    FallingRest(q.lam, q.first);
    SeedArrives(m, q, aps0, true, 2, Terminal(3), j, Item(0, 0), 1);
    FallingFollowBound(q.lam, q.first);
    LookaheadsWithin(m.g, q.lam, q.first, m.a, q.f, FallingBound());
  }

  lemma FallingRest(lam: set<nat>, first: First)
    ensures 1 in FirstOf(lam, first, Rest(FallingGrammar(), Item(0, 0)))
  {
    assert Rest(FallingGrammar(), Item(0, 0)) == [Terminal(1)];
  }

  /** The actions of the state after X: the reduce on A and the shift of B. */
  lemma FallingActions(m: Machine, q: Sets, aps0: seq<seq<Action>>, j: nat, k: nat, act: Action)
    requires Falling(m, q, aps0)
    requires Leads(m.g, m.a, 0, Terminal(3), j) && HasItems(m.a, 0, FallingStart())
    requires HasItems(m.a, j, {Item(1, 1), Item(2, 1)})
    requires Leads(m.g, m.a, j, Terminal(2), k) && IsRaw(m.g, m.a, q.f, j, Action(2, Shift, k))
    ensures IsRaw(m.g, m.a, q.f, j, act) <==> act in {Action(1, Reduce, 2), Action(2, Shift, k)}
  {
    hide Usable, ActionTable, FirstSetsOf, ExactFollow, ListMade, Partial, Leads, FirstOf;
    FallingFollow(m, q, aps0, j);
    CollectionIsPartial(m.g, q.lam, q.first, m.a);
    ItemsOf(m.a, j, {Item(1, 1), Item(2, 1)});
    assert Item(0, 0) !in {Item(1, 1), Item(2, 1)} && Item(0, 0) in FallingStart();
    if IsRaw(m.g, m.a, q.f, j, act) {
      RawCases(m, q, aps0, true, j, act);
      if act.kind == Shift {
        LeadsUnique(m.g, q.lam, q.first, m.a, j, Terminal(2), act.target, k);
      }
    }
  }

  /** In every compressed parser for the grammar token A, which reduces by a ::= X after X, is
      shifted as B there after compression. */
  lemma FallbackShifts(m: Machine, q: Sets, aps0: seq<seq<Action>>) returns (j: nat, k: nat)
    requires Falling(m, q, aps0)
    ensures Leads(m.g, m.a, 0, Terminal(3), j) && Leads(m.g, m.a, j, Terminal(2), k) && j < |m.aps| == |aps0|
    ensures DecidesOn(FallingGrammar(), aps0[j], 1, 1, Effect(Reduce, 2))
    ensures DecidesOn(FallingGrammar(), m.aps[j], 1, 1, Effect(Shift, k))
  {
    hide Usable, FirstSetsOf, ExactFollow, Collection, Leads, IsRaw, UniqueLive, ListMade, DecidesOn;
    j := FallingState(m, q, aps0);
    GeneratedIsUsable(m, q, aps0, true);
    LeadsTo(m.a, m.g, 0, Terminal(3), j);
    ItemsOf(m.a, j, {Item(1, 1), Item(2, 1)});
    k := Transition(m, q, aps0, true, j, Item(1, 1));
    assert ActionsFor(m.g, m.a, q.f, j, aps0[j]) && ListMade(m.g, aps0[j], m.aps[j], true);
    forall act ensures IsRaw(m.g, m.a, q.f, j, act) <==> act in {Action(1, Reduce, 2), Action(2, Shift, k)} {
      FallingActions(m, q, aps0, j, k, act);
    }
    NoConflictKeepsAll(m.g, m.a, q.f, j, aps0[j]);
    FallenDecisions(aps0[j], m.aps[j], k);
  }

  lemma FallenDecisions(ap0: seq<Action>, ap: seq<Action>, k: nat)
    requires UniqueLive(ap0) && ListMade(FallingGrammar(), ap0, ap, true)
    requires forall act :: act in ap0 && Live(act) <==> act in {Action(1, Reduce, 2), Action(2, Shift, k)}
    ensures DecidesOn(FallingGrammar(), ap0, 1, 1, Effect(Reduce, 2))
    ensures DecidesOn(FallingGrammar(), ap, 1, 1, Effect(Shift, k))
  {
    hide UniqueLive, MostFrequent, UsesWildcard, CompressedBy;
    var g, x, y := FallingGrammar(), Action(1, Reduce, 2), Action(2, Shift, k);
    assert x in ap0 && y in ap0;
    NoWildcard(g, ap0);
    var r: nat :| CompressedBy(g, ap0, ap, r);
    OnlyRule(g, ap0, ap, r, 2);
    LiveOnUnique(ap0, x);
    LiveOnUnique(ap0, y);
    OwnAfter(g, ap0, ap, 2, 1);
    assert ChainEnds(g.fallback, 2, 0) && ChainEnds(g.fallback, 1, 1);
    OthersPreserved(g, ap0, ap, 2, 2, 0);
  }

  lemma OnlyRule(g: Grammar, ap0: seq<Action>, ap: seq<Action>, r: nat, only: nat)
    requires CompressedBy(g, ap0, ap, r)
    requires forall act | act in ap0 && act.kind == Reduce :: act.target == only
    ensures r == only
  {
    HasReduceBy(ap0, r);
  }

  lemma NoWildcard(g: Grammar, ap: seq<Action>)
    requires g.wildcard.None?
    ensures !UsesWildcard(g, ap)
  {
  }

  // ----- A nullable nonterminal without an empty rule -----

  /** s ::= c a T.  c ::= X.  a ::= b.  b ::= .  T and X are terminals 1 and 2; a, b, c, error and s are
      nonterminals 3 to 7. */
  function NullableGrammar(): Grammar {
    Grammar(3, 8,
            [Rule(7, [Nonterminal(5), Nonterminal(3), Terminal(1)], None), Rule(5, [Terminal(2)], None),
             Rule(3, [Nonterminal(4)], None), Rule(4, [], None)],
            7, 6, [-1, -1, -1], [UnknownAssoc, UnknownAssoc, UnknownAssoc], [0, 0, 0], None)
  }

  lemma NullableIsWf()
    ensures WfGrammar(NullableGrammar()) && NoSubstitutes(NullableGrammar())
  {
    var g := NullableGrammar();
    assert g.rules[0].lhs == g.start;
    assert forall r | 0 <= r < |g.rules| :: WfRule(g, g.rules[r]);
  }

  /** X T is a sentence: c derives X, and a derives nothing through b. */
  lemma NullableSentence()
    ensures Sentence(NullableGrammar(), [2, 1])
  {
    hide Rightmost;
    var g := NullableGrammar();
    Expand(g, 0, [5, 3, 1], [], []);
    Expand(g, 2, [4], [5], [1]);
    Expand(g, 3, [], [5], [1]);
    Expand(g, 1, [2], [], [1]);
    var none: seq<nat> := [];
    assert none + [7] + [] == [7] && none + [5, 3, 1] + [] == [5, 3, 1] && [5] + [3] + [1] == [5, 3, 1];
    assert [5] + [4] + [1] == [5, 4, 1] && [5] + none + [1] == [5, 1] && none + [5] + [1] == [5, 1];
    assert none + [2] + [1] == [2, 1];
    RightmostTrans(g, [7], [0], [5, 3, 1], [2], [5, 4, 1]);
    RightmostTrans(g, [7], [0] + [2], [5, 4, 1], [3], [5, 1]);
    RightmostTrans(g, [7], [0] + [2] + [3], [5, 1], [1], [2, 1]);
    NullableIsWf();
    SentenceIffDerived(g, [2, 1]);
  }

  ghost predicate NullableCase(m: Machine, q: Sets, aps0: seq<seq<Action>>, compress: bool) {
    Generated(m, q, aps0, compress) && m.g == NullableGrammar()
  }

  ghost function NullableStart(): set<Item> {
    {Item(0, 0), Item(1, 0)}
  }

  lemma NullableClosure()
    ensures IsClosure(NullableGrammar(), StartItems(NullableGrammar()), NullableStart())
  {
    var g, c := NullableGrammar(), NullableStart();
    assert StartItems(g) == {Item(0, 0)};
    forall d: set<Item> | StartItems(g) <= d && Closed(g, d) ensures c <= d {
      assert Item(0, 0) in d;
      assert Spawns(g, Item(0, 0), Item(1, 0));
    }
  }

  lemma NullableState(m: Machine, q: Sets, aps0: seq<seq<Action>>, compress: bool) returns (j: nat)
    requires NullableCase(m, q, aps0, compress)
    ensures Leads(m.g, m.a, 0, Terminal(2), j) && HasItems(m.a, 0, NullableStart()) && HasItems(m.a, j, {Item(1, 1)})
    ensures IsRaw(m.g, m.a, q.f, 0, Action(2, Shift, j))
  {
    hide Usable, ActionTable, FirstSetsOf, ExactFollow, ListMade, Collection, IsRaw, IsClosure;
    NullableClosure();
    StartStateItems(m, q, aps0, compress, NullableStart());
    ItemsOf(m.a, 0, NullableStart());
    j := Transition(m, q, aps0, compress, 0, Item(1, 0));
    var goto_ := GotoSet(m.g, NullableStart(), Terminal(2));
    assert goto_ == {Item(1, 1)} by {
      assert Advance(Item(1, 0)) in goto_;
    }
    GotoState(m, q, aps0, compress, 0, Terminal(2), j);
  }

  ghost function NullableBound(): First {
    map[7 := {0}, 3 := {1}, 4 := {1}]
  }

  /** The first set of a is empty, and a is not flagged: nothing is seeded for c. */
  lemma NullableFirst(lam: set<nat>, first: First)
    requires FirstSetsOf(NullableGrammar(), lam, first)
    ensures 3 !in lam && 3 in first && first[3] == {}
  {
    var g := NullableGrammar();
    var other: First := map[3 := {}, 4 := {}, 5 := {2}, 6 := {}, 7 := {2}];
    assert forall r | 0 <= r < |g.rules| :: g.rules[r].lhs == 3 ==> g.rules[r].rhs != [];
    assert HasEmptyRule(g, 4) by { assert g.rules[3].lhs == 4 && g.rules[3].rhs == []; }
    assert !HasEmptyRule(g, 5) && !HasEmptyRule(g, 3);
    assert g.rules[0].rhs[0] == Nonterminal(5) && FirstOf(lam, other, g.rules[0].rhs) == {2};
    assert FirstOf(lam, other, g.rules[2].rhs[1..]) == {} && FirstOf(lam, other, g.rules[2].rhs) == {};
    assert FirstOf(lam, other, g.rules[1].rhs) == {2};
    assert Solution(g, lam, other);
    assert Below(first, other);
  }

  lemma NullableFollowBound(lam: set<nat>, first: First)
    requires FirstSetsOf(NullableGrammar(), lam, first)
    ensures FollowBound(NullableGrammar(), lam, first, NullableBound())
  {
    hide FirstSetsOf;
    var g, b := NullableGrammar(), NullableBound();
    NullableFirst(lam, first);
    assert g.rules[0].rhs[1..] == [Nonterminal(3), Terminal(1)] && g.rules[0].rhs[2..] == [Terminal(1)];
    assert g.rules[2].rhs[1..] == [];
    assert FirstOf(lam, first, [Nonterminal(3), Terminal(1)]) == {};
    assert FirstOf(lam, first, [Terminal(1)]) == {1};
    assert !SymbolLambda(lam, [Nonterminal(3), Terminal(1)][0]) && !SymbolLambda(lam, [Terminal(1)][0]);
    assert BoundAfter(g, lam, first, b, 0, 0) && BoundAfter(g, lam, first, b, 0, 1);
    assert BoundAfter(g, lam, first, b, 2, 0);
  }

  /** The state after X has no action at all. */
  lemma NullableActions(m: Machine, q: Sets, aps0: seq<seq<Action>>, compress: bool, j: nat, act: Action)
    requires NullableCase(m, q, aps0, compress)
    requires Leads(m.g, m.a, 0, Terminal(2), j) && HasItems(m.a, 0, NullableStart()) && HasItems(m.a, j, {Item(1, 1)})
    ensures !IsRaw(m.g, m.a, q.f, j, act)
  {
    hide Usable, ActionTable, FirstSetsOf, ExactFollow, ListMade, Collection, Leads, FollowBound;
    ItemsOf(m.a, j, {Item(1, 1)});
    NullableFollowBound(q.lam, q.first);
    LookaheadsWithin(m.g, q.lam, q.first, m.a, q.f, NullableBound());
    assert Item(0, 0) !in {Item(1, 1)} && Item(0, 0) in NullableStart();
    if IsRaw(m.g, m.a, q.f, j, act) {
      RawCases(m, q, aps0, compress, j, act);
    }
  }

  lemma NullableList(m: Machine, q: Sets, aps0: seq<seq<Action>>, compress: bool, j: nat)
    requires NullableCase(m, q, aps0, compress)
    requires Leads(m.g, m.a, 0, Terminal(2), j) && HasItems(m.a, 0, NullableStart()) && HasItems(m.a, j, {Item(1, 1)})
    ensures j < |m.aps| && forall act | act in m.aps[j] :: !Live(act)
  {
    hide Usable, FirstSetsOf, ExactFollow, Collection, Leads, HasItems, IsRaw, ListMade;
    GeneratedIsUsable(m, q, aps0, compress);
    LeadsTo(m.a, m.g, 0, Terminal(2), j);
    forall act ensures !IsRaw(m.g, m.a, q.f, j, act) {
      NullableActions(m, q, aps0, compress, j, act);
    }
    NoReduceKeepsList(m, q, aps0, compress, j);
    assert ActionsFor(m.g, m.a, q.f, j, aps0[j]);
  }

  /** In state 0 token X is shifted. */
  lemma NullableShift(m: Machine, q: Sets, aps0: seq<seq<Action>>, compress: bool, j: nat)
    requires NullableCase(m, q, aps0, compress)
    requires Leads(m.g, m.a, 0, Terminal(2), j) && HasItems(m.a, 0, NullableStart())
    requires IsRaw(m.g, m.a, q.f, 0, Action(2, Shift, j))
    ensures ShiftDecision(m, 0, 2) == Effect(Shift, j)
  {
    hide Contested, Usable, FirstSetsOf, ExactFollow, Partial, Leads, IsRaw, ListMade, UniqueLive;
    GeneratedIsUsable(m, q, aps0, compress);
    StateNumber(m, 0);
    LevelState(m, 0);
    MachineTables(m);
    ItemsOf(m.a, 0, NullableStart());
    forall act | IsRaw(m.g, m.a, q.f, 0, act) ensures act.kind != Reduce {
      RawCases(m, q, aps0, compress, 0, act);
    }
    NoReduceKeepsList(m, q, aps0, compress, 0);
    assert ActionsFor(m.g, m.a, q.f, 0, aps0[0]);
    assert SomeLive(aps0[0], Action(2, Shift, j).sp);
    var own := LiveOn(m.aps[0], 2).value;
    RawCases(m, q, aps0, compress, 0, own);
    LeadsUnique(m.g, q.lam, q.first, m.a, 0, Terminal(2), own.target, j);
  }

  /** After X token T is an error. */
  lemma NullableError(m: Machine, q: Sets, aps0: seq<seq<Action>>, compress: bool, j: nat, s: nat)
    requires NullableCase(m, q, aps0, compress) && s < m.tb.nstate && StateId(m, s) == j
    requires Leads(m.g, m.a, 0, Terminal(2), j) && HasItems(m.a, 0, NullableStart()) && HasItems(m.a, j, {Item(1, 1)})
    ensures ShiftDecision(m, s, 1) == ERROR_EFFECT
  {
    hide Generated, Leads, HasItems;
    GeneratedIsUsable(m, q, aps0, compress);
    NullableList(m, q, aps0, compress, j);
    NullableDecision(m, s, j);
  }

  lemma NullableDecision(m: Machine, s: nat, j: nat)
    requires Usable(m) && m.g == NullableGrammar() && s < m.tb.nstate && StateId(m, s) == j < |m.aps|
    requires forall act | act in m.aps[j] :: !Live(act)
    ensures ShiftDecision(m, s, 1) == ERROR_EFFECT
  {
    hide Usable;
    StateNumber(m, s);
    MachineTables(m);
  }

  /** X T is a sentence, and every parser for the grammar, compressed or not, finds an error in it:
      completeness does not reach grammars in which a nullable nonterminal has no empty rule. */
  lemma NullableRejected(m: Machine, q: Sets, aps0: seq<seq<Action>>, compress: bool, limit: nat)
    requires NullableCase(m, q, aps0, compress) && m.tb.depth >= 2 && limit >= 1
    ensures Sentence(m.g, [2, 1]) && TablesUsable(m.tb)
    ensures [Shifted(2), Errored(1, true)] <= Session(m.tb, Idle(m.tb), [2, 1], limit).log
  {
    hide Usable, Generated, Leads, HasItems, IsRaw, Step, ErrorStep, ReduceStep, StackOf, Moves, ReadAs, ShiftDecision,
         Session, Safe;
    NullableSentence();
    GeneratedIsUsable(m, q, aps0, compress);
    MachineUsable(m);
    var j := NullableState(m, q, aps0, compress);
    NullableShift(m, q, aps0, compress, j);
    var tb, b := m.tb, Begin(Idle(m.tb), 2);
    StartStack(m);
    assert b.stack == [Entry(0, 0)];
    StepShape(m, b, []);
    var c := Step(tb, b);
    assert c.stack == [Entry(0, 0), Entry(m.num[j], 2)] && c.log == [Shifted(2)];
    RunOne(tb, b, limit);
    RunStopped(tb, c, limit - 1);
    IdleIsSafe(m);
    BeginSafe(m, Idle(tb), 2);
    StepSafe(m, b);
    BeginSafe(m, c, 1);
    NullableSecond(m, q, aps0, compress, j, c, limit);
    SessionSnoc(tb, Idle(tb), [], 2, limit);
    SessionSnoc(tb, Idle(tb), [2], 1, limit);
    SessionOfNothing(tb, limit);
    assert [] + [2] == [2] && [2] + [1] == [2, 1];
  }

  lemma NullableSecond(m: Machine, q: Sets, aps0: seq<seq<Action>>, compress: bool, j: nat, c: Config, limit: nat)
    requires NullableCase(m, q, aps0, compress) && limit >= 1 && Safe(m, c) && j < |m.num|
    requires Leads(m.g, m.a, 0, Terminal(2), j) && HasItems(m.a, 0, NullableStart()) && HasItems(m.a, j, {Item(1, 1)})
    requires c.stack == [Entry(0, 0), Entry(m.num[j], 2)] && c.log == [Shifted(2)] && c.errcnt < 0
    ensures TablesUsable(m.tb) && [Shifted(2), Errored(1, true)] <= Run(m.tb, Begin(c, 1), limit).log
  {
    hide Usable, Generated, Leads, HasItems, Step, ErrorStep, ReduceStep, StackOf, Moves, ReadAs, ShiftDecision;
    GeneratedIsUsable(m, q, aps0, compress);
    MachineUsable(m);
    LeadsTo(m.a, m.g, 0, Terminal(2), j);
    NumberOfState(m, j);
    var b := Begin(c, 1);
    var form :| StackOf(m, b.stack, form);
    StepShape(m, b, form);
    NullableError(m, q, aps0, compress, j, m.num[j]);
    ErrorIsLogged(m.tb, b);
    RunOne(m.tb, b, limit);
    RunKeepsLog(m.tb, Step(m.tb, b), limit - 1);
  }
}
