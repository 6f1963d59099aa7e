/** LR(0) items, closures, states, and what a collection of states with its propagation links
    has to satisfy while it is being built and when it is complete. */
module Automata {
  import opened Grammars
  import opened FirstSets

  datatype Item = Item(rule: nat, dot: nat)

  /** A configuration record: an item in a state. */
  datatype Cfg = Cfg(state: nat, item: Item)

  datatype ActionKind = Shift | Accept | Reduce | ErrorAction | Conflict | ShResolved | RdResolved | NotUsed

  /** `target` is a state for a shift and a rule otherwise. */
  datatype Action = Action(sp: nat, kind: ActionKind, target: nat)

  /** Actions that end up in the tables. */
  predicate Live(x: Action) {
    x.kind == Shift || x.kind == Accept || x.kind == Reduce || x.kind == ErrorAction
  }

  ghost predicate SomeLive(s: seq<Action>, sp: nat) {
    exists k :: 0 <= k < |s| && s[k].sp == sp && Live(s[k])
  }

  /** No symbol has two live actions. */
  ghost predicate UniqueLive(s: seq<Action>) {
    forall i, j :: 0 <= i < j < |s| && Live(s[i]) && Live(s[j]) ==> s[i].sp != s[j].sp
  }

  datatype State = State(basis: seq<Item>, items: seq<Item>, ap: seq<Action>)

  /** The states with the fields of their configuration records: follow set, forward and
      backward propagation links. */
  datatype Automaton = Automaton(
    states: seq<State>,
    fws: map<Cfg, set<nat>>,
    fplp: map<Cfg, seq<Cfg>>,
    bplp: map<Cfg, seq<Cfg>>)

  // ----- Items -----

  predicate WfItem(g: Grammar, it: Item) {
    it.rule < |g.rules| && it.dot <= |g.rules[it.rule].rhs|
  }

  /** The symbol after the dot. */
  function Next(g: Grammar, it: Item): Option<Symbol> {
    if it.rule < |g.rules| && it.dot < |g.rules[it.rule].rhs| then Some(g.rules[it.rule].rhs[it.dot]) else None
  }

  /** What follows the symbol after the dot. */
  function Rest(g: Grammar, it: Item): seq<Symbol>
    requires Next(g, it).Some?
  {
    g.rules[it.rule].rhs[it.dot + 1..]
  }

  function Advance(it: Item): Item {
    Item(it.rule, it.dot + 1)
  }

  predicate IsComplete(g: Grammar, it: Item) {
    it.rule < |g.rules| && it.dot == |g.rules[it.rule].rhs|
  }

  function ItemCmp(a: Item, b: Item): int {
    var x := a.rule - b.rule;
    if x == 0 then a.dot - b.dot else x
  }

  function ItemSet(s: seq<Item>): set<Item> {
    set it | it in s
  }

  ghost predicate Distinct<T>(s: seq<T>) {
    forall i, j :: 0 <= i < j < |s| ==> s[i] != s[j]
  }

  ghost predicate Ordered(s: seq<Item>) {
    forall i, j :: 0 <= i < j < |s| ==> ItemCmp(s[i], s[j]) < 0
  }

  ghost function ItemsOfRule(g: Grammar, r: nat): set<Item>
    requires r < |g.rules|
  {
    set d: nat | d <= |g.rules[r].rhs| :: Item(r, d)
  }

  ghost function ItemsBelow(g: Grammar, n: nat): (s: set<Item>)
    requires n <= |g.rules|
    ensures forall it :: it in s <==> it.rule < n && WfItem(g, it)
  {
    if n == 0 then {} else ItemsBelow(g, n - 1) + ItemsOfRule(g, n - 1)
  }

  ghost function AllItems(g: Grammar): (s: set<Item>)
    ensures forall it :: it in s <==> WfItem(g, it)
  {
    ItemsBelow(g, |g.rules|)
  }

  /** The list sort loses elements from 2^30 elements on; a grammar with fewer items than that
      never makes it sort such a list of items. */
  ghost predicate FewItems(g: Grammar) {
    |AllItems(g)| < 0x4000_0000
  }

  // ----- Closures and goto sets -----

  /** The closure step from `src` puts `it` into the state. */
  predicate Spawns(g: Grammar, src: Item, it: Item) {
    && it.dot == 0 && it.rule < |g.rules|
    && Next(g, src) == Some(Nonterminal(g.rules[it.rule].lhs))
  }

  ghost predicate Closed(g: Grammar, c: set<Item>) {
    forall src, it | src in c && Spawns(g, src, it) :: it in c
  }

  ghost predicate InClosedSupersets(g: Grammar, k: set<Item>, c: set<Item>) {
    forall d: set<Item> | k <= d && Closed(g, d) :: c <= d
  }

  /** `c` is the least closed set that contains `k`. */
  ghost predicate IsClosure(g: Grammar, k: set<Item>, c: set<Item>) {
    k <= c && Closed(g, c) && InClosedSupersets(g, k, c)
  }

  ghost function GotoSet(g: Grammar, c: set<Item>, x: Symbol): set<Item> {
    set it | it in c && Next(g, it) == Some(x) :: Advance(it)
  }

  ghost function StartItems(g: Grammar): set<Item> {
    set r: nat | r < |g.rules| && g.rules[r].lhs == g.start :: Item(r, 0)
  }

  // ----- States and configurations -----

  ghost predicate StateOk(g: Grammar, st: State) {
    && Ordered(st.basis) && Ordered(st.items)
    && IsClosure(g, ItemSet(st.basis), ItemSet(st.items))
    && (forall it | it in st.items :: WfItem(g, it))
  }

  ghost predicate HasNext(g: Grammar, a: Automaton, i: nat, x: Symbol)
    requires i < |a.states|
  {
    exists it :: it in a.states[i].items && Next(g, it) == Some(x)
  }

  /** State `j` is reached from state `i` over `x`. */
  ghost predicate Leads(g: Grammar, a: Automaton, i: nat, x: Symbol, j: nat) {
    && i < |a.states| && j < |a.states|
    && HasNext(g, a, i, x)
    && ItemSet(a.states[j].basis) == GotoSet(g, ItemSet(a.states[i].items), x)
  }

  /** State 0 is the start state and every other state is reached from an earlier one. */
  ghost predicate Placed(g: Grammar, a: Automaton, j: nat)
    requires j < |a.states|
  {
    if j == 0 then ItemSet(a.states[0].basis) == StartItems(g)
    else exists i: nat, x :: i < j && Leads(g, a, i, x, j)
  }

  ghost predicate DistinctBases(a: Automaton) {
    forall i, j :: 0 <= i < j < |a.states| ==> a.states[i].basis != a.states[j].basis
  }

  ghost predicate IsCfg(a: Automaton, c: Cfg) {
    c.state < |a.states| && c.item in a.states[c.state].items
  }

  /** Terminal `t` is put into the follow set of `c` when its state is built. */
  ghost predicate Seeded(g: Grammar, lam: set<nat>, first: First, a: Automaton, c: Cfg, t: nat)
    requires IsCfg(a, c)
  {
    || (c.state == 0 && c.item in a.states[0].basis && t == 0)
    || SeededBy(g, lam, first, a.states[c.state].items, c.item, t)
  }

  ghost predicate SeededBy(g: Grammar, lam: set<nat>, first: First, items: seq<Item>, it: Item, t: nat) {
    exists src :: src in items && Spawns(g, src, it) && t in FirstOf(lam, first, Rest(g, src))
  }

  /** Link from an item to an item of its closure, when the rest of its rule is lambda. */
  ghost predicate ClosureLink(g: Grammar, lam: set<nat>, c: Cfg, d: Cfg) {
    c.state == d.state && Spawns(g, c.item, d.item) && AllLambda(lam, Rest(g, c.item))
  }

  /** Link from an item to the same item with the dot moved over a symbol. */
  ghost predicate ShiftLink(g: Grammar, a: Automaton, c: Cfg, d: Cfg) {
    && IsCfg(a, c) && Next(g, c.item).Some? && d.item == Advance(c.item)
    && Leads(g, a, c.state, Next(g, c.item).value, d.state)
  }

  ghost predicate ConfigOk(g: Grammar, lam: set<nat>, first: First, a: Automaton, c: Cfg) {
    && c in a.fws && c in a.fplp && c in a.bplp && IsCfg(a, c)
    && (forall t :: t in a.fws[c] <==> Seeded(g, lam, first, a, c, t))
    && (forall d :: d in a.fplp[c] <==> ClosureLink(g, lam, c, d))
    && (forall b | b in a.bplp[c] :: ShiftLink(g, a, b, c))
  }

  ghost predicate ShiftOk(g: Grammar, a: Automaton, i: nat, act: Action) {
    && act.kind == Shift
    && exists x :: Spells(x, act.sp) && Leads(g, a, i, x, act.target)
  }

  ghost predicate KeysOk(a: Automaton) {
    && (forall c :: c in a.fws <==> IsCfg(a, c))
    && (forall c :: c in a.fplp <==> IsCfg(a, c))
    && (forall c :: c in a.bplp <==> IsCfg(a, c))
  }

  /** What holds at every moment of the construction. */
  ghost predicate Partial(g: Grammar, lam: set<nat>, first: First, a: Automaton) {
    && (forall i | 0 <= i < |a.states| :: StateOk(g, a.states[i]))
    && (forall i | 0 <= i < |a.states| :: Placed(g, a, i))
    && DistinctBases(a)
    && KeysOk(a)
    && (forall c | IsCfg(a, c) :: ConfigOk(g, lam, first, a, c))
    && (forall i, act | 0 <= i < |a.states| && act in a.states[i].ap :: ShiftOk(g, a, i, act))
  }

  /** State `i` has its transition over `x`: the goto state, a shift for every symbol that `x`
      stands for, and the back links. */
  ghost predicate DoneVia(g: Grammar, a: Automaton, i: nat, x: Symbol, j: nat) {
    && Leads(g, a, i, x, j)
    && (forall s: nat | Spells(x, s) :: Action(s, Shift, j) in a.states[i].ap)
    && (forall it | it in a.states[i].items && Next(g, it) == Some(x) ::
          var d := Cfg(j, Advance(it)); d in a.bplp && Cfg(i, it) in a.bplp[d])
  }

  ghost predicate DoneSymbol(g: Grammar, a: Automaton, i: nat, x: Symbol) {
    exists j: nat :: DoneVia(g, a, i, x, j)
  }

  ghost predicate Done(g: Grammar, a: Automaton, i: nat) {
    && i < |a.states|
    && forall it | it in a.states[i].items && Next(g, it).Some? :: DoneSymbol(g, a, i, Next(g, it).value)
  }

  /** The canonical collection of LR(0) states, with every link the construction records. */
  ghost predicate Collection(g: Grammar, lam: set<nat>, first: First, a: Automaton) {
    && |a.states| > 0
    && Partial(g, lam, first, a)
    && forall i | 0 <= i < |a.states| :: Done(g, a, i)
  }

  // ----- Growth -----

  ghost predicate SameStates(a: Automaton, b: Automaton) {
    && |a.states| <= |b.states|
    && (forall i | 0 <= i < |a.states| ::
          && b.states[i].basis == a.states[i].basis
          && b.states[i].items == a.states[i].items
          && (forall act | act in a.states[i].ap :: act in b.states[i].ap))
  }

  ghost predicate Grows(a: Automaton, b: Automaton) {
    && SameStates(a, b)
    && (forall c | c in a.bplp :: c in b.bplp && forall l | l in a.bplp[c] :: l in b.bplp[c])
  }

  lemma LeadsGrows(g: Grammar, a: Automaton, b: Automaton, i: nat, x: Symbol, j: nat)
    requires SameStates(a, b) && i < |a.states| && j < |a.states|
    ensures Leads(g, a, i, x, j) <==> Leads(g, b, i, x, j)
  {
    if HasNext(g, a, i, x) {
      var it :| it in a.states[i].items && Next(g, it) == Some(x);
      assert HasNext(g, b, i, x);
    }
    if HasNext(g, b, i, x) {
      var it :| it in b.states[i].items && Next(g, it) == Some(x);
      assert HasNext(g, a, i, x);
    }
  }

  lemma DoneSymbolGrows(g: Grammar, a: Automaton, b: Automaton, i: nat, x: Symbol)
    requires Grows(a, b) && DoneSymbol(g, a, i, x)
    ensures DoneSymbol(g, b, i, x)
  {
    var j: nat :| DoneVia(g, a, i, x, j);
    LeadsGrows(g, a, b, i, x, j);
    assert DoneVia(g, b, i, x, j);
  }

  lemma DoneGrows(g: Grammar, a: Automaton, b: Automaton, i: nat)
    requires Grows(a, b) && Done(g, a, i)
    ensures Done(g, b, i)
  {
    forall it | it in b.states[i].items && Next(g, it).Some?
      ensures DoneSymbol(g, b, i, Next(g, it).value)
    {
      DoneSymbolGrows(g, a, b, i, Next(g, it).value);
    }
  }

  lemma GrowsTrans(a: Automaton, b: Automaton, c: Automaton)
    requires Grows(a, b) && Grows(b, c)
    ensures Grows(a, c)
  {
  }

  // ----- Order makes the list of a kernel canonical -----

  lemma {:induction false} OrderedUnique(s: seq<Item>, t: seq<Item>)
    requires Ordered(s) && Ordered(t) && ItemSet(s) == ItemSet(t)
    ensures s == t
    decreases |s|
  {
    if s == [] {
      assert forall k | 0 <= k < |t| :: t[k] in ItemSet(t);
    } else {
      assert s[0] in ItemSet(s);
      assert t != [];
      assert t[0] in ItemSet(t);
      assert s[0] in t && t[0] in s;
      assert s[0] == t[0];
      forall it ensures it in ItemSet(s[1..]) <==> it in ItemSet(t[1..]) {
        assert it in ItemSet(s[1..]) <==> it in ItemSet(s) && it != s[0] by { HeadOnce(s); }
        assert it in ItemSet(t[1..]) <==> it in ItemSet(t) && it != t[0] by { HeadOnce(t); }
      }
      OrderedUnique(s[1..], t[1..]);
    }
  }

  lemma HeadOnce(s: seq<Item>)
    requires Ordered(s) && s != []
    ensures ItemSet(s[1..]) == ItemSet(s) - {s[0]}
  {
    assert s == [s[0]] + s[1..];
    forall it | it in s[1..] ensures it != s[0] {
      var k :| 0 <= k < |s[1..]| && s[1..][k] == it;
      assert ItemCmp(s[0], s[k + 1]) < 0;
    }
  }

  lemma SameKernelSameState(g: Grammar, lam: set<nat>, first: First, a: Automaton, i: nat, j: nat)
    requires Partial(g, lam, first, a) && i < |a.states| && j < |a.states|
    requires ItemSet(a.states[i].basis) == ItemSet(a.states[j].basis)
    ensures i == j
  {
    assert StateOk(g, a.states[i]) && StateOk(g, a.states[j]);
    OrderedUnique(a.states[i].basis, a.states[j].basis);
  }

  /** A transition leads to only one state. */
  lemma LeadsUnique(g: Grammar, lam: set<nat>, first: First, a: Automaton, i: nat, x: Symbol, j: nat, k: nat)
    requires Partial(g, lam, first, a) && Leads(g, a, i, x, j) && Leads(g, a, i, x, k)
    ensures j == k
  {
    SameKernelSameState(g, lam, first, a, j, k);
  }

  /** Items of a state other than those of its kernel have the dot in front and were spawned by
      an item of the state. */
  lemma ItemOrigin(g: Grammar, st: State, it: Item)
    requires StateOk(g, st) && it in st.items
    ensures it in st.basis || exists src :: src in st.items && Spawns(g, src, it)
  {
    if it !in st.basis && !exists src :: src in st.items && Spawns(g, src, it) {
      var d := ItemSet(st.items) - {it};
      assert ItemSet(st.basis) <= d by {
        assert ItemSet(st.basis) <= ItemSet(st.items);
      }
      assert Closed(g, d);
    }
  }
}
