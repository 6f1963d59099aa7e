/** Construction of the states: `getstate` and `buildshifts` call each other until every state
    has all its successors. */
module StateBuilder {
  import opened Grammars
  import opened FirstSets
  import opened Automata
  import opened Configlists
  import opened AutomatonSteps
  import opened ItemSort
  import opened HashTables

  // ----- Termination: there are only so many kernels -----

  ghost function UsedKernels(a: Automaton): set<set<Item>> {
    set i | 0 <= i < |a.states| :: ItemSet(a.states[i].basis)
  }

  ghost function Unseen(g: Grammar, a: Automaton): set<set<Item>> {
    (set k: set<Item> | k <= AllItems(g)) - UsedKernels(a)
  }

  lemma UnseenShrinks(g: Grammar, a: Automaton, st: State, c: Configlist, back: map<Item, seq<Cfg>>)
    requires forall i | 0 <= i < |a.states| :: Ordered(a.states[i].basis) && a.states[i].basis != st.basis
    requires Ordered(st.basis) && forall it | it in st.basis :: WfItem(g, it)
    ensures Unseen(g, WithState(a, st, c, back)) < Unseen(g, a)
  {
    var b, k := WithState(a, st, c, back), ItemSet(st.basis);
    assert k <= AllItems(g);
    if k in UsedKernels(a) {
      var i :| 0 <= i < |a.states| && ItemSet(a.states[i].basis) == k;
      OrderedUnique(a.states[i].basis, st.basis);
    }
    forall u | u in UsedKernels(a) ensures u in UsedKernels(b) {
      var i :| 0 <= i < |a.states| && ItemSet(a.states[i].basis) == u;
      assert b.states[i] == a.states[i];
    }
    assert b.states[|a.states|] == st;
    assert k in UsedKernels(b);
  }

  lemma UnseenGrows(g: Grammar, a: Automaton, b: Automaton)
    requires Grows(a, b)
    ensures Unseen(g, b) <= Unseen(g, a)
  {
    forall u | u in UsedKernels(a) ensures u in UsedKernels(b) {
      var i :| 0 <= i < |a.states| && ItemSet(a.states[i].basis) == u;
      assert b.states[i].basis == a.states[i].basis;
    }
  }

  lemma ClosureOfSameSet(g: Grammar, lam: set<nat>, first: First, k1: seq<Item>, k2: seq<Item>, eof: set<nat>,
                         c: Configlist)
    requires ClosureOf(g, lam, first, k1, eof, c) && ItemSet(k1) == ItemSet(k2)
    ensures ClosureOf(g, lam, first, k2, eof, c)
  {
    hide IsClosure, SeededBy;
    forall it ensures it in k1 <==> it in k2 {
      assert it in k1 <==> it in ItemSet(k1);
    }
  }

  lemma OrderedBases(g: Grammar, lam: set<nat>, first: First, a: Automaton)
    requires Partial(g, lam, first, a)
    ensures forall i | 0 <= i < |a.states| :: Ordered(a.states[i].basis)
  {
    hide IsClosure;
    forall i | 0 <= i < |a.states| ensures Ordered(a.states[i].basis) {
      assert StateOk(g, a.states[i]);
    }
  }

  /** Transfer of every link of one list to the front of another. */
  function PlinkCopy(to: seq<Cfg>, from: seq<Cfg>): (r: seq<Cfg>)
    ensures forall l :: l in r <==> l in to || l in from
    decreases |from|
  {
    if from == [] then to else PlinkCopy([from[0]] + to, from[1..])
  }

  /** All links of `back` have arrived at the configurations of state `stp`. */
  ghost predicate BackIn(a: Automaton, stp: nat, back: map<Item, seq<Cfg>>) {
    forall it | it in back :: Cfg(stp, it) in a.bplp && forall l | l in back[it] :: l in a.bplp[Cfg(stp, it)]
  }

  lemma BackInGrows(a: Automaton, b: Automaton, stp: nat, back: map<Item, seq<Cfg>>)
    requires BackIn(a, stp, back) && Grows(a, b)
    ensures BackIn(b, stp, back)
  {
  }

  lemma LastState(a: Automaton, st: State, c: Configlist, back: map<Item, seq<Cfg>>)
    ensures var b := WithState(a, st, c, back); |b.states| == |a.states| + 1 && b.states[|a.states|] == st
  {
  }

  lemma GrowsBasis(a: Automaton, b: Automaton, i: nat)
    requires Grows(a, b) && i < |a.states|
    ensures |a.states| <= |b.states| && b.states[i].basis == a.states[i].basis && b.states[i].items == a.states[i].items
  {
  }

  lemma BackInNew(a: Automaton, st: State, c: Configlist, back: map<Item, seq<Cfg>>)
    requires forall it | it in back :: it in c.fplp
    ensures BackIn(WithState(a, st, c, back), |a.states|, back)
  {
    var b := WithState(a, st, c, back);
    forall it | it in back ensures Cfg(|a.states|, it) in b.bplp && b.bplp[Cfg(|a.states|, it)] == back[it] {}
  }

  lemma ExistingShiftLink(g: Grammar, a: Automaton, kernel: seq<Item>, back: map<Item, seq<Cfg>>, eof: set<nat>,
        from: nat, x: Symbol, stp: nat)
    requires KernelFrom(g, a, kernel, back, eof, from, x) && stp < |a.states|
    requires ItemSet(a.states[stp].basis) == ItemSet(kernel)
    ensures forall it, l | it in back && l in back[it] :: ShiftLink(g, a, l, Cfg(stp, it))
  {
  }

  ghost predicate DoneFrom(g: Grammar, a: Automaton, n: nat) {
    forall i | n <= i < |a.states| :: Done(g, a, i)
  }

  lemma DoneFromGrows(g: Grammar, a: Automaton, b: Automaton, n: nat)
    requires n <= |a.states| && DoneFrom(g, a, n) && Grows(a, b) && DoneFrom(g, b, |a.states|)
    ensures DoneFrom(g, b, n)
  {
    hide Grows;
    forall i | n <= i < |b.states| ensures Done(g, b, i) {
      if i < |a.states| {
        assert Done(g, a, i);
        DoneGrows(g, a, b, i);
      }
    }
  }

  /** An item is used up exactly when an item before index `n` has the same symbol next. */
  ghost predicate CompleteUpTo(g: Grammar, items: seq<Item>, complete: seq<bool>, n: nat) {
    && |complete| == |items|
    && forall k | 0 <= k < |items| ::
         complete[k] <==>
         Next(g, items[k]).Some? && exists j :: 0 <= j < n && j < |items| && Next(g, items[j]) == Next(g, items[k])
  }

  lemma CompleteFresh(g: Grammar, items: seq<Item>, complete: seq<bool>, n: nat)
    requires CompleteUpTo(g, items, complete, n) && n < |items| && !complete[n] && Next(g, items[n]).Some?
    ensures forall k | 0 <= k < n :: Next(g, items[k]) != Next(g, items[n])
    ensures forall k | n <= k < |items| && Next(g, items[k]) == Next(g, items[n]) :: !complete[k]
  {
  }

  lemma CompleteNext(g: Grammar, items: seq<Item>, before: seq<bool>, after: seq<bool>, n: nat)
    requires CompleteUpTo(g, items, before, n) && n < |items| && |after| == |items|
    requires if before[n] || Next(g, items[n]).None? then after == before
             else forall k | 0 <= k < |items| :: after[k] <==> before[k] || Next(g, items[k]) == Next(g, items[n])
    ensures CompleteUpTo(g, items, after, n + 1)
  {
    forall k | 0 <= k < |items|
      ensures after[k] <==>
        Next(g, items[k]).Some? && exists j :: 0 <= j < n + 1 && j < |items| && Next(g, items[j]) == Next(g, items[k])
    {
      if Next(g, items[k]).Some? && Next(g, items[n]) == Next(g, items[k]) && before[n] {
        var j :| 0 <= j < n && j < |items| && Next(g, items[j]) == Next(g, items[n]);
        assert before[k];
      }
      if Next(g, items[k]).Some? &&
         exists j :: 0 <= j < n + 1 && j < |items| && Next(g, items[j]) == Next(g, items[k])
      {
        var j :| 0 <= j < n + 1 && j < |items| && Next(g, items[j]) == Next(g, items[k]);
        assert j < n ==> before[k];
      }
    }
  }

  /** The symbols after the dots of the first `n` items have their transitions. */
  ghost predicate DoneUpTo(g: Grammar, a: Automaton, stp: nat, items: seq<Item>, n: nat) {
    n <= |items| && forall k | 0 <= k < n && Next(g, items[k]).Some? :: DoneSymbol(g, a, stp, Next(g, items[k]).value)
  }

  lemma DoneUpToGrows(g: Grammar, a: Automaton, b: Automaton, stp: nat, items: seq<Item>, n: nat)
    requires DoneUpTo(g, a, stp, items, n) && Grows(a, b)
    ensures DoneUpTo(g, b, stp, items, n)
  {
    hide Grows, DoneSymbol;
    forall k | 0 <= k < n && Next(g, items[k]).Some? ensures DoneSymbol(g, b, stp, Next(g, items[k]).value) {
      DoneSymbolGrows(g, a, b, stp, Next(g, items[k]).value);
    }
  }

  lemma DoneUpToAll(g: Grammar, a: Automaton, stp: nat)
    requires stp < |a.states| && DoneUpTo(g, a, stp, a.states[stp].items, |a.states[stp].items|)
    ensures Done(g, a, stp)
  {
    hide DoneSymbol;
    var items := a.states[stp].items;
    forall it | it in items && Next(g, it).Some? ensures DoneSymbol(g, a, stp, Next(g, it).value) {
      var k :| 0 <= k < |items| && items[k] == it;
    }
  }

  lemma ShiftKernel(g: Grammar, a: Automaton, stp: nat, idx: nat, sp: Symbol, kernel: seq<Item>,
                    back: map<Item, seq<Cfg>>)
    requires stp < |a.states| && idx < |a.states[stp].items| && Next(g, a.states[stp].items[idx]) == Some(sp)
    requires var items := a.states[stp].items;
      && (forall it :: it in back <==> it in kernel)
      && (forall it :: it in kernel <==> exists src :: src in items && Next(g, src) == Some(sp) && it == Advance(src))
      && (forall it, l | it in back ::
           l in back[it] <==> l.state == stp && l.item in items && Next(g, l.item) == Some(sp) && it == Advance(l.item))
    ensures KernelFrom(g, a, kernel, back, {}, stp, sp)
    ensures forall it | it in kernel :: WfItem(g, it)
    ensures ItemSet(kernel) == GotoSet(g, ItemSet(a.states[stp].items), sp)
  {
    var items := a.states[stp].items;
    assert items[idx] in items;
    forall it ensures it in ItemSet(kernel) <==> it in GotoSet(g, ItemSet(items), sp) {}
  }

  lemma TransitionDone(g: Grammar, a: Automaton, stp: nat, sp: Symbol, kernel: seq<Item>, back: map<Item, seq<Cfg>>,
        next: nat)
    requires Leads(g, a, stp, sp, next) && BackIn(a, next, back)
    requires forall s: nat | Spells(sp, s) :: Action(s, Shift, next) in a.states[stp].ap
    requires forall it | it in a.states[stp].items && Next(g, it) == Some(sp) ::
      Advance(it) in back && Cfg(stp, it) in back[Advance(it)]
    ensures DoneSymbol(g, a, stp, sp)
  {
    assert DoneVia(g, a, stp, sp, next);
  }

  lemma CfgsOfState(g: Grammar, lam: set<nat>, first: First, a: Automaton, stp: nat)
    requires Partial(g, lam, first, a) && stp < |a.states|
    ensures forall it | it in a.states[stp].items :: Cfg(stp, it) in a.bplp
  {
    forall it | it in a.states[stp].items ensures Cfg(stp, it) in a.bplp {
      assert IsCfg(a, Cfg(stp, it));
    }
  }

  lemma BackLinksCopied(g: Grammar, lam: set<nat>, first: First, a: Automaton, b: Automaton, stp: nat,
        kernel: seq<Item>, back: map<Item, seq<Cfg>>)
    requires Partial(g, lam, first, a) && stp < |a.states|
    requires b == a.(bplp := b.bplp) && b.bplp.Keys == a.bplp.Keys
    requires forall it :: it in back <==> it in kernel
    requires forall it | it in kernel :: Cfg(stp, it) in a.bplp
    requires forall c | c in a.bplp && !(c.state == stp && c.item in kernel) :: b.bplp[c] == a.bplp[c]
    requires forall it | it in kernel :: b.bplp[Cfg(stp, it)] == PlinkCopy(a.bplp[Cfg(stp, it)], back[it])
    requires forall it, l | it in back && l in back[it] :: ShiftLink(g, a, l, Cfg(stp, it))
    ensures Partial(g, lam, first, b) && Grows(a, b) && BackIn(b, stp, back)
  {
    hide Partial, ShiftLink;
    forall c | c in a.bplp
      ensures forall l | l in a.bplp[c] :: l in b.bplp[c]
      ensures forall l | l in b.bplp[c] && l !in a.bplp[c] :: ShiftLink(g, a, l, c)
    {
      if c.state == stp && c.item in kernel {
        assert c == Cfg(stp, c.item);
      }
    }
    BackLinksPartial(g, lam, first, a, b);
  }

  // ----- The number of shifts -----

  /** A transition over a multi-terminal makes a shift for each of its terminals. */
  function Width(x: Symbol): nat {
    if x.Multiterminal? then |x.subs| else 1
  }

  function WidestSymbol(rhs: seq<Symbol>): (w: nat)
    ensures w >= 1 && forall i | 0 <= i < |rhs| :: Width(rhs[i]) <= w
  {
    if rhs == [] then 1
    else
      var rest := WidestSymbol(rhs[1..]);
      assert forall i | 1 <= i < |rhs| :: rhs[i] == rhs[1..][i - 1];
      if Width(rhs[0]) > rest then Width(rhs[0]) else rest
  }

  function Widest(rules: seq<Rule>): (w: nat)
    ensures w >= 1 && forall r, i | 0 <= r < |rules| && 0 <= i < |rules[r].rhs| :: Width(rules[r].rhs[i]) <= w
  {
    if rules == [] then 1
    else
      var rest, first := Widest(rules[1..]), WidestSymbol(rules[0].rhs);
      assert forall r | 1 <= r < |rules| :: rules[r] == rules[1..][r - 1];
      if first > rest then first else rest
  }

  /** A state has no more shifts than its items can make. */
  ghost predicate FewShifts(g: Grammar, a: Automaton) {
    forall i | 0 <= i < |a.states| :: |a.states[i].ap| <= |a.states[i].items| * Widest(g.rules)
  }

  /** Actions were added to state `stp` and to new states only. */
  ghost predicate OnlyShifts(a: Automaton, b: Automaton, stp: nat) {
    && |a.states| <= |b.states|
    && forall i | 0 <= i < |a.states| && i != stp :: b.states[i].ap == a.states[i].ap
  }

  /** The shifts made in state `stp` by its first `n` items. */
  ghost predicate ShiftsUpTo(g: Grammar, a: Automaton, stp: nat, n: nat) {
    stp < |a.states| && |a.states[stp].ap| <= n * Widest(g.rules)
  }

  lemma ShiftsUpToNext(g: Grammar, a: Automaton, stp: nat, n: nat)
    requires ShiftsUpTo(g, a, stp, n)
    ensures ShiftsUpTo(g, a, stp, n + 1)
  {
    hide Widest;
    MulMono(n, n + 1, Widest(g.rules));
  }

  lemma NothingChanged(a: Automaton, stp: nat)
    ensures Grows(a, a) && OnlyShifts(a, a, stp)
  {
  }

  lemma ShiftsStay(a: Automaton, b: Automaton, stp: nat)
    requires Grows(a, b) && stp < |a.states|
    ensures |a.states| <= |b.states| && forall act | act in a.states[stp].ap :: act in b.states[stp].ap
  {
  }

  lemma OnlyShiftsTrans(a: Automaton, b: Automaton, c: Automaton, stp: nat)
    requires OnlyShifts(a, b, stp) && OnlyShifts(b, c, stp)
    ensures OnlyShifts(a, c, stp)
  {
  }

  lemma NewStateShifts(g: Grammar, a: Automaton, st: State, c: Configlist, back: map<Item, seq<Cfg>>)
    requires FewShifts(g, a) && st.ap == []
    ensures FewShifts(g, WithState(a, st, c, back)) && OnlyShifts(a, WithState(a, st, c, back), |a.states|)
  {
  }

  lemma NothingShifted(g: Grammar, a: Automaton, stp: nat)
    requires stp < |a.states| && a.states[stp].ap == []
    ensures OnlyShifts(a, a, stp) && ShiftsUpTo(g, a, stp, 0)
  {
  }

  lemma SameStatesShifts(g: Grammar, a: Automaton, b: Automaton)
    requires FewShifts(g, a) && b.states == a.states
    ensures FewShifts(g, b) && OnlyShifts(a, b, |a.states|)
  {
  }

  /** One transition, with whatever it built on the way, and the shifts it made in `stp`. */
  lemma ShiftsCounted(g: Grammar, a1: Automaton, a2: Automaton, b: Automaton, stp: nat, idx: nat, sp: Symbol)
    requires stp < |a1.states| && idx < |a1.states[stp].items| && Next(g, a1.states[stp].items[idx]) == Some(sp)
    requires ShiftsUpTo(g, a1, stp, idx)
    requires Grows(a1, a2) && OnlyShifts(a1, a2, |a1.states|) && FewShifts(g, a2)
    requires Grows(a2, b) && OnlyShifts(a2, b, stp) && |b.states| == |a2.states|
    requires |b.states[stp].ap| == |a2.states[stp].ap| + Width(sp)
    ensures FewShifts(g, b) && OnlyShifts(a1, b, stp) && ShiftsUpTo(g, b, stp, idx + 1)
  {
    hide FewShifts;
    var w := Widest(g.rules);
    assert Width(sp) <= w;
    assert (idx + 1) * w == idx * w + w;
    MoreShifts(g, a2, b, stp, idx + 1);
  }

  lemma MoreShifts(g: Grammar, a: Automaton, b: Automaton, stp: nat, n: nat)
    requires FewShifts(g, a) && OnlyShifts(a, b, stp) && |b.states| == |a.states| && stp < |a.states|
    requires n <= |b.states[stp].items| && |b.states[stp].ap| <= n * Widest(g.rules)
    requires forall i | 0 <= i < |a.states| :: b.states[i].items == a.states[i].items
    ensures FewShifts(g, b)
  {
    hide Widest;
    MulMono(n, |b.states[stp].items|, Widest(g.rules));
    forall i | 0 <= i < |b.states| ensures |b.states[i].ap| <= |b.states[i].items| * Widest(g.rules) {
      if i != stp {
        assert b.states[i].ap == a.states[i].ap && b.states[i].items == a.states[i].items;
      }
    }
  }

  lemma MulMono(n: nat, k: nat, w: nat)
    requires n <= k
    ensures n * w <= k * w
  {
  }

  lemma NothingNew(g: Grammar, a: Automaton)
    ensures DoneFrom(g, a, |a.states|)
  {
  }

  lemma DoneLast(g: Grammar, a: Automaton, b: Automaton, stp: nat)
    requires stp == |a.states| < |b.states| && DoneFrom(g, b, stp + 1) && Done(g, b, stp)
    ensures DoneFrom(g, b, stp)
  {
  }

  /** After the transition of item `n` the first `n + 1` items have theirs. */
  lemma TransitionAdded(g: Grammar, a0: Automaton, a1: Automaton, a: Automaton, stp: nat, items: seq<Item>, n: nat)
    requires stp < |a0.states| && Grows(a0, a1) && Grows(a1, a)
    requires a1.states[stp].items == items && n < |items| && Next(g, items[n]).Some?
    requires DoneFrom(g, a1, |a0.states|) && DoneFrom(g, a, |a1.states|)
    requires DoneUpTo(g, a1, stp, items, n) && DoneSymbol(g, a, stp, Next(g, items[n]).value)
    requires OnlyShifts(a0, a1, stp) && OnlyShifts(a1, a, stp)
    ensures Grows(a0, a) && stp < |a.states| && |a0.states| <= |a.states| && a.states[stp].items == items
    ensures DoneFrom(g, a, |a0.states|) && DoneUpTo(g, a, stp, items, n + 1)
    ensures OnlyShifts(a0, a, stp)
  {
    hide DoneFrom, DoneUpTo, DoneSymbol, Grows, OnlyShifts;
    GrowsBasis(a0, a1, stp);
    GrowsBasis(a1, a, stp);
    GrowsTrans(a0, a1, a);
    DoneFromGrows(g, a1, a, |a0.states|);
    DoneUpToGrows(g, a1, a, stp, items, n);
    DoneUpToNext(g, a, stp, items, n);
    OnlyShiftsTrans(a0, a1, a, stp);
  }

  /** What a new state changes and what it leaves alone. */
  lemma AddedState(g: Grammar, lam: set<nat>, first: First, a: Automaton, st: State, c: Configlist, kernel: seq<Item>,
      back: map<Item, seq<Cfg>>, eof: set<nat>, from: nat, x: Symbol)
    requires Partial(g, lam, first, a) && FewShifts(g, a)
    requires ClosureOf(g, lam, first, kernel, eof, c) && KernelFrom(g, a, kernel, back, eof, from, x)
    requires ItemSet(kernel) == ItemSet(st.basis) && ItemSet(c.order) == ItemSet(st.items)
    requires Ordered(st.basis) && Ordered(st.items) && st.ap == []
    requires forall it :: it in back <==> it in kernel
    requires forall i | 0 <= i < |a.states| :: a.states[i].basis != st.basis
    ensures var b := WithState(a, st, c, back);
      && Partial(g, lam, first, b) && Grows(a, b)
      && |b.states| == |a.states| + 1 && b.states[|a.states|] == st
      && BackIn(b, |a.states|, back)
      && FewShifts(g, b) && OnlyShifts(a, b, |a.states|)
      && Unseen(g, b) < Unseen(g, a)
  {
    hide Partial, KernelFrom, NewState, Grows, BackIn, ClosureOf, WithState, FewShifts, OnlyShifts, Unseen;
    IsNewState(g, lam, first, a, st, c, kernel, back, eof, from, x);
    WithStatePartial(g, lam, first, a, st, c, back, eof, from, x);
    OrderedBases(g, lam, first, a);
    UnseenShrinks(g, a, st, c, back);
    BackInNew(a, st, c, back);
    NewStateShifts(g, a, st, c, back);
    LastState(a, st, c, back);
  }

  /** The table of the states holds every state under its kernel, in the order of the numbers. */
  ghost predicate Lists(pairs: seq<(seq<Item>, nat)>, a: Automaton) {
    |pairs| == |a.states| && forall i | 0 <= i < |pairs| :: pairs[i] == (a.states[i].basis, i)
  }

  lemma ListsNew(pairs: seq<(seq<Item>, nat)>, a: Automaton, st: State, c: Configlist, back: map<Item, seq<Cfg>>)
    requires Lists(pairs, a)
    ensures Lists(pairs + [(st.basis, |a.states|)], WithState(a, st, c, back))
  {
  }

  lemma NotListed(pairs: seq<(seq<Item>, nat)>, a: Automaton, basis: seq<Item>)
    requires Lists(pairs, a) && forall i | 0 <= i < |a.states| :: a.states[i].basis != basis
    ensures forall i | 0 <= i < |pairs| :: StateCmp(pairs[i].0, basis) != 0
  {
    forall i | 0 <= i < |pairs| ensures StateCmp(pairs[i].0, basis) != 0 {
      StateCmpIsEquality(pairs[i].0, basis);
    }
  }

  lemma ListsSame(pairs: seq<(seq<Item>, nat)>, a: Automaton, b: Automaton)
    requires Lists(pairs, a) && Grows(a, b) && |b.states| == |a.states|
    ensures Lists(pairs, b)
  {
  }

  class Lemon {
    const g: Grammar
    const lam: set<nat>
    const first: First
    const x3a: HashTable<seq<Item>, nat>
    var a: Automaton

    constructor (g: Grammar, lam: set<nat>, first: First)
      ensures this.g == g && this.lam == lam && this.first == first
      ensures a == Automaton([], map[], map[], map[])
      ensures TableOk() && fresh(x3a) && fresh(x3a.ht)
    {
      this.g, this.lam, this.first := g, lam, first;
      StateKeysCompatible();
      x3a := new HashTable(StateCmp, StateHash, 128);
      a := Automaton([], map[], map[], map[]);
    }

    ghost predicate Usable() {
      WfGrammar(g) && FewItems(g) && FirstSetsOf(g, lam, first)
    }

    lemma UsableHasFewItems()
      requires Usable()
      ensures FewItems(g)
    {
    }

    ghost predicate TableOk()
      reads this, x3a, x3a.ht
    {
      x3a.Valid() && x3a.cmp == StateCmp && x3a.hash == StateHash && Lists(x3a.Contents(), a)
    }

    /** The state with this kernel, from the hash table. */
    method FindState(basis: seq<Item>) returns (r: Option<nat>)
      requires TableOk()
      ensures r.Some? ==> r.value < |a.states| && a.states[r.value].basis == basis
      ensures r.None? ==> forall i | 0 <= i < |a.states| :: a.states[i].basis != basis
    {
      r := x3a.Find(basis);
      forall i | 0 <= i < |a.states|
        ensures a.states[i].basis == basis ==> r == Some(i)
        ensures StateCmp(a.states[i].basis, basis) == 0 ==> a.states[i].basis == basis
      {
        StateCmpIsEquality(a.states[i].basis, basis);
        assert x3a.Contents()[i] == (a.states[i].basis, i);
      }
    }

    method CopyBackLinks(stp: nat, kernel: seq<Item>, back: map<Item, seq<Cfg>>)
      requires Usable() && Partial(g, lam, first, a) && stp < |a.states| && TableOk()
      requires Distinct(kernel) && forall it :: it in back <==> it in kernel
      requires forall it | it in kernel :: it in a.states[stp].items
      requires forall it, l | it in back && l in back[it] :: ShiftLink(g, a, l, Cfg(stp, it))
      modifies this`a
      ensures TableOk()
      ensures Partial(g, lam, first, a) && Grows(old(a), a) && a.states == old(a).states
      ensures BackIn(a, stp, back)
    {
      hide Partial, ShiftLink, Lists, Grows, BackIn, Usable;
      CfgsOfState(g, lam, first, a, stp);
      ghost var before := a.bplp;
      var bplp := a.bplp;
      for k := 0 to |kernel|
        invariant bplp.Keys == before.Keys
        invariant forall c | c in before && !(c.state == stp && c.item in kernel[..k]) :: bplp[c] == before[c]
        invariant forall it | it in kernel[..k] :: bplp[Cfg(stp, it)] == PlinkCopy(before[Cfg(stp, it)], back[it])
      {
        assert kernel[k] !in kernel[..k];
        assert kernel[..k + 1] == kernel[..k] + [kernel[k]];
        var c := Cfg(stp, kernel[k]);
        bplp := bplp[c := PlinkCopy(bplp[c], back[kernel[k]])];
      }
      assert kernel[..|kernel|] == kernel;
      BackLinksCopied(g, lam, first, a, a.(bplp := bplp), stp, kernel, back);
      ListsSame(x3a.Contents(), a, a.(bplp := bplp));
      a := a.(bplp := bplp);
    }

    /** Append a state and put it into the table. */
    method StoreState(st: State, c: Configlist, back: map<Item, seq<Cfg>>)
      requires TableOk() && forall i | 0 <= i < |a.states| :: a.states[i].basis != st.basis
      modifies this`a, x3a, x3a.ht
      ensures a == WithState(old(a), st, c, back)
      ensures TableOk() && (x3a.ht == old(x3a.ht) || fresh(x3a.ht))
    {
      hide WithState, Lists;
      ListsNew(x3a.Contents(), a, st, c, back);
      NotListed(x3a.Contents(), a, st.basis);
      var ok := x3a.Insert(st.basis, |a.states|);
      a := WithState(a, st, c, back);
    }

    /** A new state for a kernel that has none yet. */
    method AddState(kernel: seq<Item>, basis: seq<Item>, back: map<Item, seq<Cfg>>, eof: set<nat>,
                    ghost from: nat, ghost x: Symbol)
      returns (stp: nat)
      requires Usable() && Partial(g, lam, first, a) && FewShifts(g, a) && TableOk()
      requires Distinct(kernel) && forall it | it in kernel :: WfItem(g, it)
      requires KernelFrom(g, a, kernel, back, eof, from, x)
      requires forall it :: it in back <==> it in kernel
      requires Ordered(basis) && ItemSet(basis) == ItemSet(kernel)
      requires forall i | 0 <= i < |a.states| :: a.states[i].basis != basis
      modifies this`a, x3a, x3a.ht
      ensures Partial(g, lam, first, a) && Grows(old(a), a) && TableOk() && (x3a.ht == old(x3a.ht) || fresh(x3a.ht))
      ensures stp == |old(a).states| && |a.states| == stp + 1
      ensures a.states[stp].basis == basis && a.states[stp].ap == []
      ensures BackIn(a, stp, back)
      ensures FewShifts(g, a) && OnlyShifts(old(a), a, stp)
      ensures Unseen(g, a) < Unseen(g, old(a))
    {
      hide Partial, KernelFrom, Grows, BackIn, ClosureOf, WithState, FewShifts, OnlyShifts, Unseen, TableOk;
      var c := Closure(g, lam, first, kernel, eof);
      var items := SortItems(g, c.order);
      stp := |a.states|;
      var st := State(basis, items, []);
      AddedState(g, lam, first, a, st, c, kernel, back, eof, from, x);
      StoreState(st, c, back);
    }

    method GetState(kernel: seq<Item>, back: map<Item, seq<Cfg>>, eof: set<nat>, ghost from: nat, ghost x: Symbol)
      returns (stp: nat)
      requires Usable() && Partial(g, lam, first, a) && TableOk()
      requires Distinct(kernel) && forall it | it in kernel :: WfItem(g, it)
      requires KernelFrom(g, a, kernel, back, eof, from, x) && FewShifts(g, a)
      requires forall it :: it in back <==> it in kernel
      modifies this`a, x3a, x3a.ht
      ensures Partial(g, lam, first, a) && Grows(old(a), a) && TableOk() && (x3a.ht == old(x3a.ht) || fresh(x3a.ht))
      ensures stp < |a.states| && ItemSet(a.states[stp].basis) == ItemSet(kernel)
      ensures BackIn(a, stp, back)
      ensures DoneFrom(g, a, |old(a).states|)
      ensures FewShifts(g, a) && OnlyShifts(old(a), a, |old(a).states|)
      decreases Unseen(g, a), 0
    {
      hide Partial, Done, DoneFrom, KernelFrom, Grows, BackIn, FewShifts, OnlyShifts, TableOk, Usable, Unseen,
           ShiftLink;
      ghost var a0 := a;
      UsableHasFewItems();
      var basis := SortItems(g, kernel);
      var found := FindState(basis);
      if found.Some? {
        stp := found.value;
        ExistingShiftLink(g, a, kernel, back, eof, from, x, stp);
        KernelInItems(stp, kernel);
        CopyBackLinks(stp, kernel, back);
        SameStatesShifts(g, a0, a);
        NothingNew(g, a);
      } else {
        stp := AddState(kernel, basis, back, eof, from, x);
        ghost var a1 := a;
        BuildShifts(stp);
        GrowsTrans(a0, a1, a);
        GrowsBasis(a1, a, stp);
        DoneLast(g, a0, a, stp);
        BackInGrows(a1, a, stp, back);
        OnlyShiftsTrans(a0, a1, a, stp);
      }
    }

    lemma KernelInItems(stp: nat, kernel: seq<Item>)
      requires Partial(g, lam, first, a) && stp < |a.states|
      requires ItemSet(a.states[stp].basis) == ItemSet(kernel)
      ensures forall it | it in kernel :: it in a.states[stp].items
    {
      assert StateOk(g, a.states[stp]);
      forall it | it in kernel ensures it in a.states[stp].items {
        assert it in ItemSet(kernel);
      }
    }

    /** The kernel over `sp` of the items from index `idx` on, none before it having `sp` next. */
    method CollectBasis(stp: nat, items: seq<Item>, idx: nat, sp: Symbol, complete: seq<bool>)
      returns (kernel: seq<Item>, back: map<Item, seq<Cfg>>, complete': seq<bool>)
      requires |complete| == |items| && idx <= |items| && Distinct(items)
      requires forall k | 0 <= k < idx :: Next(g, items[k]) != Some(sp)
      requires forall k | idx <= k < |items| && Next(g, items[k]) == Some(sp) :: !complete[k]
      ensures |complete'| == |items|
      ensures forall k | 0 <= k < |items| :: complete'[k] <==> complete[k] || Next(g, items[k]) == Some(sp)
      ensures Distinct(kernel) && forall it :: it in back <==> it in kernel
      ensures forall it :: it in kernel <==>
        exists src :: src in items && Next(g, src) == Some(sp) && it == Advance(src)
      ensures forall it, l | it in back ::
        l in back[it] <==> l.state == stp && l.item in items && Next(g, l.item) == Some(sp) && it == Advance(l.item)
    {
      kernel, back, complete' := [], map[], complete;
      for k := idx to |items|
        invariant |complete'| == |items|
        invariant forall j | 0 <= j < k :: complete'[j] <==> complete[j] || Next(g, items[j]) == Some(sp)
        invariant forall j | k <= j < |items| :: complete'[j] == complete[j]
        invariant Distinct(kernel) && forall it :: it in back <==> it in kernel
        invariant forall it :: it in kernel <==>
          exists src :: src in items[..k] && Next(g, src) == Some(sp) && it == Advance(src)
        invariant forall it, l | it in back :: l in back[it] <==>
          l.state == stp && l.item in items[..k] && Next(g, l.item) == Some(sp) && it == Advance(l.item)
      {
        assert items[..k + 1] == items[..k] + [items[k]];
        if complete'[k] || Next(g, items[k]) != Some(sp) { continue; }
        complete' := complete'[k := true];
        var it := Advance(items[k]);
        assert it !in kernel;
        kernel := kernel + [it];
        back := back[it := [Cfg(stp, items[k])]];
      }
      assert items[..|items|] == items;
    }

    method AddShift(stp: nat, s: nat, next: nat, ghost sp: Symbol)
      requires Partial(g, lam, first, a) && Leads(g, a, stp, sp, next) && Spells(sp, s)
      modifies this`a
      ensures Partial(g, lam, first, a) && Leads(g, a, stp, sp, next)
      ensures Grows(old(a), a) && a.bplp == old(a.bplp) && |a.states| == |old(a).states|
      ensures Action(s, Shift, next) in a.states[stp].ap
      ensures OnlyShifts(old(a), a, stp) && |a.states[stp].ap| == |old(a).states[stp].ap| + 1
    {
      hide Partial, Leads;
      ghost var a0 := a;
      assert ShiftOk(g, a, stp, Action(s, Shift, next));
      LeadsStates(g, a, stp, sp, next);
      WithActionPartial(g, lam, first, a, stp, Action(s, Shift, next));
      a := WithAction(a, stp, Action(s, Shift, next));
      LeadsGrows(g, a0, a, stp, sp, next);
    }

    /** A shift to `next` for every symbol that `sp` stands for. */
    method AddShifts(stp: nat, sp: Symbol, next: nat)
      requires Partial(g, lam, first, a) && Leads(g, a, stp, sp, next) && TableOk()
      modifies this`a
      ensures TableOk()
      ensures Partial(g, lam, first, a) && Leads(g, a, stp, sp, next)
      ensures Grows(old(a), a) && a.bplp == old(a.bplp) && |a.states| == |old(a).states|
      ensures forall s: nat | Spells(sp, s) :: Action(s, Shift, next) in a.states[stp].ap
      ensures OnlyShifts(old(a), a, stp) && |a.states[stp].ap| == |old(a).states[stp].ap| + Width(sp)
    {
      hide Partial, Leads, Lists, OnlyShifts, Grows;
      NothingChanged(a, stp);
      ghost var a0 := a;
      LeadsStates(g, a, stp, sp, next);
      if sp.Multiterminal? {
        for i := 0 to |sp.subs|
          invariant Partial(g, lam, first, a) && Leads(g, a, stp, sp, next)
          invariant Grows(a0, a) && a.bplp == a0.bplp && |a.states| == |a0.states|
          invariant forall k | 0 <= k < i :: Action(sp.subs[k], Shift, next) in a.states[stp].ap
          invariant OnlyShifts(a0, a, stp) && |a.states[stp].ap| == |a0.states[stp].ap| + i
        {
          ghost var a1 := a;
          AddShift(stp, sp.subs[i], next, sp);
          GrowsTrans(a0, a1, a);
          OnlyShiftsTrans(a0, a1, a, stp);
          ShiftsStay(a1, a, stp);
        }
      } else {
        AddShift(stp, sp.index, next, sp);
      }
      ListsSame(x3a.Contents(), a0, a);
    }

    /** The transition of state `stp` over the symbol `sp` after the dot of item `idx`. */
    method ShiftOver(stp: nat, idx: nat, sp: Symbol, complete: seq<bool>) returns (complete': seq<bool>)
      requires Usable() && Partial(g, lam, first, a) && stp < |a.states|
      requires |complete| == |a.states[stp].items| && idx < |complete| && Next(g, a.states[stp].items[idx]) == Some(sp)
      requires forall k | 0 <= k < idx :: Next(g, a.states[stp].items[k]) != Some(sp)
      requires forall k | idx <= k < |complete| && Next(g, a.states[stp].items[k]) == Some(sp) :: !complete[k]
      requires FewShifts(g, a) && ShiftsUpTo(g, a, stp, idx) && TableOk()
      modifies this`a, x3a, x3a.ht
      ensures TableOk() && (x3a.ht == old(x3a.ht) || fresh(x3a.ht))
      ensures Partial(g, lam, first, a) && Grows(old(a), a)
      ensures DoneSymbol(g, a, stp, sp) && DoneFrom(g, a, |old(a).states|)
      ensures |complete'| == |complete|
      ensures forall k | 0 <= k < |complete| ::
        complete'[k] <==> complete[k] || Next(g, old(a).states[stp].items[k]) == Some(sp)
      ensures FewShifts(g, a) && OnlyShifts(old(a), a, stp) && ShiftsUpTo(g, a, stp, idx + 1)
      decreases Unseen(g, a), 1
    {
      hide Partial, Grows, Done, DoneFrom, DoneSymbol, KernelFrom, BackIn, Leads, Usable, FewShifts, OnlyShifts,
           ShiftsUpTo, TableOk;
      ghost var a1 := a;
      StateItemsDistinct(g, lam, first, a, stp);
      var kernel, back;
      kernel, back, complete' := CollectBasis(stp, a.states[stp].items, idx, sp, complete);
      ShiftKernel(g, a, stp, idx, sp, kernel, back);
      var newstp := GetState(kernel, back, {}, stp, sp);
      ghost var a2 := a;
      GrowsBasis(a1, a2, stp);
      ShiftLeads(g, a, stp, idx, sp, newstp);
      AddShifts(stp, sp, newstp);
      GrowsTrans(a1, a2, a);
      BackInGrows(a2, a, newstp, back);
      GrowsBasis(a2, a, stp);
      TransitionDone(g, a, stp, sp, kernel, back, newstp);
      DoneFromSame(g, a2, a, |a1.states|);
      ShiftsCounted(g, a1, a2, a, stp, idx, sp);
    }

    method BuildShifts(stp: nat)
      requires Usable() && Partial(g, lam, first, a) && stp < |a.states|
      requires FewShifts(g, a) && a.states[stp].ap == [] && TableOk()
      modifies this`a, x3a, x3a.ht
      ensures TableOk() && (x3a.ht == old(x3a.ht) || fresh(x3a.ht))
      ensures Partial(g, lam, first, a) && Grows(old(a), a)
      ensures Done(g, a, stp)
      ensures DoneFrom(g, a, |old(a).states|)
      ensures FewShifts(g, a) && OnlyShifts(old(a), a, stp)
      decreases Unseen(g, a), 2
    {
      hide Partial, Grows, Done, DoneFrom, DoneUpTo, DoneSymbol, CompleteUpTo, FewShifts, OnlyShifts, ShiftsUpTo,
           TableOk, Usable;
      ghost var a0 := a;
      var items := a.states[stp].items;
      var complete := seq(|items|, _ => false);
      NothingDone(g, a, stp);
      NothingShifted(g, a, stp);
      for idx := 0 to |items|
        invariant Partial(g, lam, first, a) && Grows(a0, a)
        invariant |a0.states| <= |a.states| && a.states[stp].items == items && |complete| == |items|
        invariant CompleteUpTo(g, items, complete, idx)
        invariant DoneUpTo(g, a, stp, items, idx)
        invariant DoneFrom(g, a, |a0.states|)
        invariant FewShifts(g, a) && OnlyShifts(a0, a, stp) && ShiftsUpTo(g, a, stp, idx)
        invariant TableOk() && (x3a.ht == old(x3a.ht) || fresh(x3a.ht))
      {
        ghost var before := complete;
        var next := Next(g, items[idx]);
        if complete[idx] || next.None? {
          DoneUpToSkip(g, a, stp, items, complete, idx);
          ShiftsUpToNext(g, a, stp, idx);
        } else {
          ghost var a1 := a;
          UnseenGrows(g, a0, a);
          CompleteFresh(g, items, complete, idx);
          complete := ShiftOver(stp, idx, next.value, complete);
          TransitionAdded(g, a0, a1, a, stp, items, idx);
        }
        CompleteNext(g, items, before, complete, idx);
      }
      DoneUpToAll(g, a, stp);
    }

    /** The basis of the first state: the rules of the start symbol, the latest first. */
    method StartBasis() returns (kernel: seq<Item>, back: map<Item, seq<Cfg>>)
      ensures Distinct(kernel) && forall it :: it in back <==> it in kernel
      ensures forall it | it in back :: back[it] == []
      ensures forall it :: it in kernel <==> it.dot == 0 && it.rule < |g.rules| && g.rules[it.rule].lhs == g.start
    {
      kernel, back := [], map[];
      var r := |g.rules|;
      while r > 0
        invariant 0 <= r <= |g.rules|
        invariant Distinct(kernel) && forall it :: it in back <==> it in kernel
        invariant forall it | it in back :: back[it] == []
        invariant forall it ::
          it in kernel <==> it.dot == 0 && r <= it.rule < |g.rules| && g.rules[it.rule].lhs == g.start
      {
        r := r - 1;
        if g.rules[r].lhs == g.start {
          kernel := kernel + [Item(r, 0)];
          back := back[Item(r, 0) := []];
        }
      }
    }

    /** The whole construction, from the rules of the start symbol. */
    method FindStates()
      requires Usable() && a == Automaton([], map[], map[], map[]) && TableOk()
      modifies this`a, x3a, x3a.ht
      ensures Collection(g, lam, first, a) && FewShifts(g, a)
    {
      hide Partial, KernelFrom, Collection, DoneFrom;
      var kernel, back := StartBasis();
      StartKernel(g, a, kernel, back);
      EmptyIsPartial(g, lam, first);
      var stp := GetState(kernel, back, {0}, 0, Nonterminal(0));
      CollectionComplete(g, lam, first, a, stp);
    }
  }

  lemma StartKernel(g: Grammar, a: Automaton, kernel: seq<Item>, back: map<Item, seq<Cfg>>)
    requires |a.states| == 0
    requires forall it | it in back :: back[it] == []
    requires forall it :: it in kernel <==> it.dot == 0 && 0 <= it.rule < |g.rules| && g.rules[it.rule].lhs == g.start
    ensures KernelFrom(g, a, kernel, back, {0}, 0, Nonterminal(0))
    ensures forall it | it in kernel :: WfItem(g, it)
  {
    forall it ensures it in ItemSet(kernel) <==> it in StartItems(g) {
      if it in kernel { assert it == Item(it.rule, 0); }
    }
  }

  lemma EmptyIsPartial(g: Grammar, lam: set<nat>, first: First)
    ensures Partial(g, lam, first, Automaton([], map[], map[], map[]))
  {
  }

  lemma CollectionComplete(g: Grammar, lam: set<nat>, first: First, a: Automaton, stp: nat)
    requires Partial(g, lam, first, a) && DoneFrom(g, a, 0) && stp < |a.states|
    ensures Collection(g, lam, first, a)
  {
  }

  lemma LeadsStates(g: Grammar, a: Automaton, i: nat, x: Symbol, j: nat)
    requires Leads(g, a, i, x, j)
    ensures i < |a.states| && j < |a.states|
  {
  }

  lemma ShiftLeads(g: Grammar, a: Automaton, stp: nat, idx: nat, sp: Symbol, next: nat)
    requires stp < |a.states| && idx < |a.states[stp].items| && Next(g, a.states[stp].items[idx]) == Some(sp)
    requires next < |a.states| && ItemSet(a.states[next].basis) == GotoSet(g, ItemSet(a.states[stp].items), sp)
    ensures Leads(g, a, stp, sp, next)
  {
    assert a.states[stp].items[idx] in a.states[stp].items;
  }

  lemma StateItemsDistinct(g: Grammar, lam: set<nat>, first: First, a: Automaton, stp: nat)
    requires Partial(g, lam, first, a) && stp < |a.states|
    ensures Distinct(a.states[stp].items)
  {
    hide IsClosure;
    assert StateOk(g, a.states[stp]);
  }

  lemma NothingDone(g: Grammar, a: Automaton, stp: nat)
    requires stp < |a.states|
    ensures CompleteUpTo(g, a.states[stp].items, seq(|a.states[stp].items|, _ => false), 0)
    ensures DoneUpTo(g, a, stp, a.states[stp].items, 0) && DoneFrom(g, a, |a.states|) && Grows(a, a)
  {
  }

  lemma DoneUpToSkip(g: Grammar, a: Automaton, stp: nat, items: seq<Item>, complete: seq<bool>, n: nat)
    requires n < |items| && DoneUpTo(g, a, stp, items, n)
    requires CompleteUpTo(g, items, complete, n)
    requires Next(g, items[n]).None? || complete[n]
    ensures DoneUpTo(g, a, stp, items, n + 1)
  {
  }

  lemma DoneUpToNext(g: Grammar, a: Automaton, stp: nat, items: seq<Item>, n: nat)
    requires n < |items| && DoneUpTo(g, a, stp, items, n)
    requires Next(g, items[n]).Some? && DoneSymbol(g, a, stp, Next(g, items[n]).value)
    ensures DoneUpTo(g, a, stp, items, n + 1)
  {
  }

  lemma DoneFromSame(g: Grammar, a: Automaton, b: Automaton, n: nat)
    requires DoneFrom(g, a, n) && Grows(a, b) && |a.states| == |b.states|
    ensures DoneFrom(g, b, n)
  {
    hide Grows;
    forall i | n <= i < |b.states| ensures Done(g, b, i) {
      assert Done(g, a, i);
      DoneGrows(g, a, b, i);
    }
  }

  lemma KernelInClosure(g: Grammar, lam: set<nat>, first: First, kernel: seq<Item>, eof: set<nat>, c: Configlist)
    requires ClosureOf(g, lam, first, kernel, eof, c)
    ensures forall it | it in kernel :: it in c.order && it in c.fplp && WfItem(g, it)
  {
    forall it | it in kernel ensures it in c.order {
      assert it in ItemSet(kernel);
    }
  }

  lemma SameKernelFrom(g: Grammar, a: Automaton, kernel: seq<Item>, basis: seq<Item>, back: map<Item, seq<Cfg>>,
        eof: set<nat>, from: nat, x: Symbol)
    requires KernelFrom(g, a, kernel, back, eof, from, x) && ItemSet(kernel) == ItemSet(basis)
    ensures KernelFrom(g, a, basis, back, eof, from, x)
  {
  }

  lemma SameItemsClosure(g: Grammar, lam: set<nat>, first: First, kernel: seq<Item>, eof: set<nat>, c: Configlist,
                         st: State)
    requires ClosureOf(g, lam, first, kernel, eof, c)
    requires ItemSet(kernel) == ItemSet(st.basis) && ItemSet(c.order) == ItemSet(st.items)
    requires Ordered(st.basis) && Ordered(st.items)
    ensures StateOk(g, st)
  {
    hide IsClosure;
    forall it ensures it in st.items <==> it in c.order {
      assert it in st.items <==> it in ItemSet(st.items);
    }
  }

  lemma IsNewState(g: Grammar, lam: set<nat>, first: First, a: Automaton, st: State, c: Configlist, kernel: seq<Item>,
        back: map<Item, seq<Cfg>>, eof: set<nat>, from: nat, x: Symbol)
    requires ClosureOf(g, lam, first, kernel, eof, c) && KernelFrom(g, a, kernel, back, eof, from, x)
    requires ItemSet(kernel) == ItemSet(st.basis) && ItemSet(c.order) == ItemSet(st.items)
    requires Ordered(st.basis) && Ordered(st.items) && st.ap == []
    requires forall it :: it in back <==> it in kernel
    requires forall i | 0 <= i < |a.states| :: a.states[i].basis != st.basis
    ensures NewState(g, lam, first, a, st, c, back, eof, from, x)
    ensures forall it | it in st.basis :: WfItem(g, it)
    ensures forall it | it in back :: it in c.fplp
  {
    hide IsClosure, SeededBy, KernelFrom;
    SameKernelFrom(g, a, kernel, st.basis, back, eof, from, x);
    SameItemsClosure(g, lam, first, kernel, eof, c, st);
    ClosureOfSameSet(g, lam, first, kernel, st.basis, eof, c);
    forall it ensures it in st.items <==> it in c.order {
      assert it in st.items <==> it in ItemSet(st.items);
    }
    forall it ensures it in kernel <==> it in st.basis {
      assert it in kernel <==> it in ItemSet(kernel);
    }
    KernelInClosure(g, lam, first, st.basis, eof, c);
  }
}
