/** The three ways the construction changes an automaton -- a new state, back links into a state
    that exists already, and shift actions -- keep everything in `Partial`. */
module AutomatonSteps {
  import opened Grammars
  import opened FirstSets
  import opened Automata
  import opened Configlists

  // ----- A new state -----

  function CfgsIn(n: nat, items: seq<Item>): (s: seq<Cfg>)
    ensures forall d :: d in s <==> d.state == n && d.item in items
  {
    if items == [] then [] else [Cfg(n, items[0])] + CfgsIn(n, items[1..])
  }

  function Lift<T>(n: nat, m: map<Item, T>): (r: map<Cfg, T>)
    ensures forall c :: c in r <==> c.state == n && c.item in m
    ensures forall c | c in r :: r[c] == m[c.item]
  {
    map it | it in m :: Cfg(n, it) := m[it]
  }

  function LinksIn(n: nat, fplp: map<Item, seq<Item>>): (r: map<Item, seq<Cfg>>)
    ensures r.Keys == fplp.Keys
    ensures forall it | it in fplp :: r[it] == CfgsIn(n, fplp[it])
  {
    map it | it in fplp :: CfgsIn(n, fplp[it])
  }

  function BackOr(fplp: map<Item, seq<Item>>, back: map<Item, seq<Cfg>>): (r: map<Item, seq<Cfg>>)
    ensures r.Keys == fplp.Keys
    ensures forall it | it in fplp :: r[it] == if it in back then back[it] else []
  {
    map it | it in fplp :: if it in back then back[it] else []
  }

  function WithState(a: Automaton, st: State, c: Configlist, back: map<Item, seq<Cfg>>): Automaton {
    var n := |a.states|;
    Automaton(
      a.states + [st],
      a.fws + Lift(n, c.fws),
      a.fplp + Lift(n, LinksIn(n, c.fplp)),
      a.bplp + Lift(n, BackOr(c.fplp, back)))
  }

  /** Where a kernel under construction comes from: the start rules, or the items of state
      `from` with `x` after the dot. */
  ghost predicate KernelFrom(g: Grammar, a: Automaton, kernel: seq<Item>, back: map<Item, seq<Cfg>>, eof: set<nat>,
        from: nat, x: Symbol) {
    if |a.states| == 0 then
      ItemSet(kernel) == StartItems(g) && eof == {0} && forall it | it in back :: back[it] == []
    else
      && from < |a.states| && eof == {}
      && HasNext(g, a, from, x)
      && ItemSet(kernel) == GotoSet(g, ItemSet(a.states[from].items), x)
      && forall it, b | it in back && b in back[it] ::
           IsCfg(a, b) && b.state == from && Next(g, b.item) == Some(x) && it == Advance(b.item)
  }

  ghost predicate NewState(g: Grammar, lam: set<nat>, first: First, a: Automaton, st: State, c: Configlist,
        back: map<Item, seq<Cfg>>, eof: set<nat>, from: nat, x: Symbol) {
    && st.ap == []
    && StateOk(g, st)
    && (forall it :: it in st.items <==> it in c.order)
    && ClosureOf(g, lam, first, st.basis, eof, c)
    && KernelFrom(g, a, st.basis, back, eof, from, x)
    && (forall it | it in back :: it in st.basis)
    && (forall i | 0 <= i < |a.states| :: a.states[i].basis != st.basis)
  }

  lemma WithStateCfgs(a: Automaton, st: State, c: Configlist, back: map<Item, seq<Cfg>>)
    ensures forall d ::
      IsCfg(WithState(a, st, c, back), d) <==> IsCfg(a, d) || (d.state == |a.states| && d.item in st.items)
  {
    var b := WithState(a, st, c, back);
    forall d ensures IsCfg(b, d) <==> IsCfg(a, d) || (d.state == |a.states| && d.item in st.items) {}
  }

  lemma WithStateKeys(a: Automaton, st: State, c: Configlist, back: map<Item, seq<Cfg>>)
    requires KeysOk(a)
    requires forall it :: it in c.fws <==> it in st.items
    requires forall it :: it in c.fplp <==> it in st.items
    ensures KeysOk(WithState(a, st, c, back))
  {
    WithStateCfgs(a, st, c, back);
    forall d
      ensures var b := WithState(a, st, c, back);
        && (d in b.fws <==> IsCfg(b, d)) && (d in b.fplp <==> IsCfg(b, d)) && (d in b.bplp <==> IsCfg(b, d))
    {
      WithStateKey(a, st, c, back, d);
    }
  }

  lemma WithStateKey(a: Automaton, st: State, c: Configlist, back: map<Item, seq<Cfg>>, d: Cfg)
    requires KeysOk(a)
    requires forall it :: it in c.fws <==> it in st.items
    requires forall it :: it in c.fplp <==> it in st.items
    ensures var b := WithState(a, st, c, back);
            var isCfg := IsCfg(a, d) || (d.state == |a.states| && d.item in st.items);
      (d in b.fws <==> isCfg) && (d in b.fplp <==> isCfg) && (d in b.bplp <==> isCfg)
  {
    hide IsCfg;
  }

  lemma WithStateStates(a: Automaton, st: State, c: Configlist, back: map<Item, seq<Cfg>>)
    ensures SameStates(a, WithState(a, st, c, back))
  {
  }

  lemma WithStateKeeps(a: Automaton, st: State, c: Configlist, back: map<Item, seq<Cfg>>, d: Cfg)
    requires KeysOk(a) && IsCfg(a, d)
    ensures var b := WithState(a, st, c, back);
      && d in b.fws && b.fws[d] == a.fws[d]
      && d in b.fplp && b.fplp[d] == a.fplp[d]
      && d in b.bplp && b.bplp[d] == a.bplp[d]
  {
  }

  lemma WithStateGrows(a: Automaton, st: State, c: Configlist, back: map<Item, seq<Cfg>>)
    requires KeysOk(a)
    ensures Grows(a, WithState(a, st, c, back)) && SameStates(a, WithState(a, st, c, back))
  {
    WithStateStates(a, st, c, back);
    hide SameStates, WithState;
    var b := WithState(a, st, c, back);
    forall d | d in a.bplp ensures d in b.bplp && b.bplp[d] == a.bplp[d] {
      WithStateKeeps(a, st, c, back, d);
    }
  }

  lemma SameKeys(g: Grammar, lam: set<nat>, first: First, a: Automaton, st: State, c: Configlist, back: map<Item,
        seq<Cfg>>, eof: set<nat>, from: nat, x: Symbol)
    requires NewState(g, lam, first, a, st, c, back, eof, from, x)
    ensures forall it :: it in c.fws <==> it in st.items
    ensures forall it :: it in c.fplp <==> it in st.items
  {
  }

  lemma OldConfigOk(g: Grammar, lam: set<nat>, first: First, a: Automaton, b: Automaton, c: Cfg)
    requires SameStates(a, b) && ConfigOk(g, lam, first, a, c)
    requires c in b.fws && c in b.fplp && c in b.bplp
    requires b.fws[c] == a.fws[c] && b.fplp[c] == a.fplp[c] && b.bplp[c] == a.bplp[c]
    ensures ConfigOk(g, lam, first, b, c)
  {
    forall t ensures Seeded(g, lam, first, a, c, t) <==> Seeded(g, lam, first, b, c, t) {}
    forall l | l in b.bplp[c] ensures ShiftLink(g, b, l, c) {
      assert ShiftLink(g, a, l, c);
      LeadsGrows(g, a, b, l.state, Next(g, l.item).value, c.state);
    }
  }

  lemma NewLeads(g: Grammar, a: Automaton, b: Automaton, kernel: seq<Item>, back: map<Item, seq<Cfg>>, eof: set<nat>,
        from: nat, x: Symbol)
    requires KernelFrom(g, a, kernel, back, eof, from, x) && SameStates(a, b)
    requires 0 < |a.states| < |b.states| && b.states[|a.states|].basis == kernel
    ensures Leads(g, b, from, x, |a.states|)
  {
    var it :| it in a.states[from].items && Next(g, it) == Some(x);
    assert HasNext(g, b, from, x);
  }

  lemma NewConfigOk(g: Grammar, lam: set<nat>, first: First, a: Automaton, st: State, c: Configlist, back: map<Item,
        seq<Cfg>>, eof: set<nat>, from: nat, x: Symbol, it: Item)
    requires KeysOk(a) && NewState(g, lam, first, a, st, c, back, eof, from, x) && it in st.items
    ensures ConfigOk(g, lam, first, WithState(a, st, c, back), Cfg(|a.states|, it))
  {
    hide Seeded, ClosureLink, ShiftLink, IsCfg, NewState, WithState;
    var b, d := WithState(a, st, c, back), Cfg(|a.states|, it);
    SameKeys(g, lam, first, a, st, c, back, eof, from, x);
    WithStateCfgs(a, st, c, back);
    WithStateKeys(a, st, c, back);
    NewSeeds(g, lam, first, a, st, c, back, eof, from, x, it);
    NewClosureLinks(g, lam, first, a, st, c, back, eof, from, x, it);
    forall l | l in b.bplp[d] ensures ShiftLink(g, b, l, d) {
      NewShiftLink(g, lam, first, a, st, c, back, eof, from, x, it, l);
    }
  }

  lemma NewClosureLinks(g: Grammar, lam: set<nat>, first: First, a: Automaton, st: State, c: Configlist,
        back: map<Item, seq<Cfg>>, eof: set<nat>, from: nat, x: Symbol, it: Item)
    requires NewState(g, lam, first, a, st, c, back, eof, from, x) && it in st.items
    ensures var b := WithState(a, st, c, back); var d := Cfg(|a.states|, it);
      d in b.fplp && forall e :: e in b.fplp[d] <==> ClosureLink(g, lam, d, e)
  {
    hide StateOk, KernelFrom, IsClosure, Spawns;
    var b, d := WithState(a, st, c, back), Cfg(|a.states|, it);
    assert b.fplp[d] == CfgsIn(|a.states|, c.fplp[it]);
  }

  lemma NewSeeds(g: Grammar, lam: set<nat>, first: First, a: Automaton, st: State, c: Configlist, back: map<Item,
        seq<Cfg>>, eof: set<nat>, from: nat, x: Symbol, it: Item)
    requires NewState(g, lam, first, a, st, c, back, eof, from, x) && it in st.items
    requires IsCfg(WithState(a, st, c, back), Cfg(|a.states|, it))
    ensures var b := WithState(a, st, c, back); var d := Cfg(|a.states|, it);
      d in b.fws && forall t :: t in b.fws[d] <==> Seeded(g, lam, first, b, d, t)
  {
    hide IsClosure, StateOk, Leads, SeededBy, KernelFrom;
    var b, d := WithState(a, st, c, back), Cfg(|a.states|, it);
    assert b.states[|a.states|] == st;
    assert b.fws[d] == c.fws[it];
    forall t ensures t in b.fws[d] <==> Seeded(g, lam, first, b, d, t) {
      SameItemsSameSeeds(g, lam, first, c.order, st.items, it, t);
      EofSeed(g, a, st.basis, back, eof, from, x, t);
    }
  }

  lemma EofSeed(g: Grammar, a: Automaton, kernel: seq<Item>, back: map<Item, seq<Cfg>>, eof: set<nat>, from: nat,
        x: Symbol, t: nat)
    requires KernelFrom(g, a, kernel, back, eof, from, x)
    ensures t in eof <==> |a.states| == 0 && t == 0
  {
  }

  lemma NewShiftLink(g: Grammar, lam: set<nat>, first: First, a: Automaton, st: State, c: Configlist, back: map<Item,
        seq<Cfg>>, eof: set<nat>, from: nat, x: Symbol, it: Item, l: Cfg)
    requires KeysOk(a) && NewState(g, lam, first, a, st, c, back, eof, from, x) && it in st.items
    requires Cfg(|a.states|, it) in WithState(a, st, c, back).bplp
    requires l in WithState(a, st, c, back).bplp[Cfg(|a.states|, it)]
    ensures ShiftLink(g, WithState(a, st, c, back), l, Cfg(|a.states|, it))
  {
    hide IsClosure, StateOk, KernelFrom, ClosureOf, Grows, SameStates, ShiftLink;
    SameKeys(g, lam, first, a, st, c, back, eof, from, x);
    WithStateGrows(a, st, c, back);
    assert it in back && l in back[it];
    ShiftLinkIntoNew(g, a, WithState(a, st, c, back), st.basis, back, eof, from, x, it, l);
  }

  lemma ShiftLinkIntoNew(g: Grammar, a: Automaton, b: Automaton, kernel: seq<Item>, back: map<Item, seq<Cfg>>,
        eof: set<nat>, from: nat, x: Symbol, it: Item, l: Cfg)
    requires KernelFrom(g, a, kernel, back, eof, from, x) && SameStates(a, b) && it in back && l in back[it]
    requires |a.states| < |b.states| && b.states[|a.states|].basis == kernel
    ensures ShiftLink(g, b, l, Cfg(|a.states|, it))
  {
    hide Leads;
    NewLeads(g, a, b, kernel, back, eof, from, x);
  }

  lemma SameItemsSameSeeds(g: Grammar, lam: set<nat>, first: First, s: seq<Item>, t: seq<Item>, it: Item, k: nat)
    requires forall i :: i in s <==> i in t
    ensures SeededBy(g, lam, first, s, it, k) <==> SeededBy(g, lam, first, t, it, k)
  {
  }

  lemma OldShiftOk(g: Grammar, a: Automaton, b: Automaton, i: nat, act: Action)
    requires SameStates(a, b) && i < |a.states| && ShiftOk(g, a, i, act)
    ensures ShiftOk(g, b, i, act)
  {
    var x :| Spells(x, act.sp) && Leads(g, a, i, x, act.target);
    LeadsGrows(g, a, b, i, x, act.target);
  }

  lemma OldPlaced(g: Grammar, a: Automaton, b: Automaton, j: nat)
    requires SameStates(a, b) && j < |a.states| && Placed(g, a, j)
    ensures Placed(g, b, j)
  {
    if j > 0 {
      var i: nat, x :| i < j && Leads(g, a, i, x, j);
      LeadsGrows(g, a, b, i, x, j);
    }
  }

  lemma WithStatePartial(g: Grammar, lam: set<nat>, first: First, a: Automaton, st: State, c: Configlist,
        back: map<Item, seq<Cfg>>, eof: set<nat>, from: nat, x: Symbol)
    requires Partial(g, lam, first, a) && NewState(g, lam, first, a, st, c, back, eof, from, x)
    ensures Partial(g, lam, first, WithState(a, st, c, back))
    ensures Grows(a, WithState(a, st, c, back))
  {
    hide IsClosure, StateOk, ConfigOk, ShiftOk, Leads, ClosureOf, Placed, Grows;
    SameKeys(g, lam, first, a, st, c, back, eof, from, x);
    WithStateKeys(a, st, c, back);
    WithStateGrows(a, st, c, back);
    var b, n := WithState(a, st, c, back), |a.states|;
    assert Grows(a, b);
    forall i | 0 <= i < |b.states| ensures StateOk(g, b.states[i]) && Placed(g, b, i) {
      if i < n {
        assert StateOk(g, a.states[i]);
        OldPlaced(g, a, b, i);
      } else {
        NewPlaced(g, a, b, st.basis, back, eof, from, x);
      }
    }
    forall d | IsCfg(b, d) ensures ConfigOk(g, lam, first, b, d) {
      if d.state < n {
        assert IsCfg(a, d);
        WithStateKeeps(a, st, c, back, d);
        OldConfigOk(g, lam, first, a, b, d);
      } else {
        NewConfigOk(g, lam, first, a, st, c, back, eof, from, x, d.item);
      }
    }
    forall i, act | 0 <= i < |b.states| && act in b.states[i].ap ensures ShiftOk(g, b, i, act) {
      OldShiftOk(g, a, b, i, act);
    }
  }

  lemma NewPlaced(g: Grammar, a: Automaton, b: Automaton, kernel: seq<Item>, back: map<Item, seq<Cfg>>, eof: set<nat>,
        from: nat, x: Symbol)
    requires KernelFrom(g, a, kernel, back, eof, from, x) && SameStates(a, b)
    requires |a.states| < |b.states| && b.states[|a.states|].basis == kernel
    ensures Placed(g, b, |a.states|)
  {
    if |a.states| > 0 {
      NewLeads(g, a, b, kernel, back, eof, from, x);
    }
  }

  // ----- Back links into an existing state -----

  ghost predicate BackLinksOnly(a: Automaton, b: Automaton) {
    && b.states == a.states && b.fws == a.fws && b.fplp == a.fplp && b.bplp.Keys == a.bplp.Keys
    && forall c | c in a.bplp :: forall l | l in a.bplp[c] :: l in b.bplp[c]
  }

  lemma BackLinksPartial(g: Grammar, lam: set<nat>, first: First, a: Automaton, b: Automaton)
    requires Partial(g, lam, first, a) && BackLinksOnly(a, b)
    requires forall c, l | c in b.bplp && l in b.bplp[c] && l !in a.bplp[c] :: ShiftLink(g, a, l, c)
    ensures Partial(g, lam, first, b) && Grows(a, b)
  {
    hide IsClosure, StateOk, ShiftOk, Leads, Placed, ConfigOk, ShiftLink, Grows, SameStates;
    BackLinksGrow(a, b);
    BackLinksKeys(a, b);
    forall j | 0 <= j < |b.states| ensures Placed(g, b, j) {
      OldPlaced(g, a, b, j);
    }
    forall c | IsCfg(b, c) ensures ConfigOk(g, lam, first, b, c) {
      assert IsCfg(a, c) && ConfigOk(g, lam, first, a, c) && c in b.bplp;
      BackLinksConfig(g, lam, first, a, b, c);
    }
    forall i, act | 0 <= i < |b.states| && act in b.states[i].ap ensures ShiftOk(g, b, i, act) {
      OldShiftOk(g, a, b, i, act);
    }
  }

  lemma BackLinksGrow(a: Automaton, b: Automaton)
    requires BackLinksOnly(a, b)
    ensures SameStates(a, b) && Grows(a, b)
  {
  }

  lemma BackLinksKeys(a: Automaton, b: Automaton)
    requires BackLinksOnly(a, b)
    ensures forall c :: IsCfg(b, c) <==> IsCfg(a, c)
    ensures KeysOk(a) ==> KeysOk(b)
  {
  }

  lemma BackLinksConfig(g: Grammar, lam: set<nat>, first: First, a: Automaton, b: Automaton, c: Cfg)
    requires BackLinksOnly(a, b) && IsCfg(a, c) && ConfigOk(g, lam, first, a, c)
    requires c in b.bplp && forall l | l in b.bplp[c] && l !in a.bplp[c] :: ShiftLink(g, a, l, c)
    ensures ConfigOk(g, lam, first, b, c)
  {
    hide Leads, SeededBy;
    forall t ensures Seeded(g, lam, first, a, c, t) <==> Seeded(g, lam, first, b, c, t) {}
    forall l | l in b.bplp[c] ensures ShiftLink(g, b, l, c) {
      assert ShiftLink(g, a, l, c);
      LeadsGrows(g, a, b, l.state, Next(g, l.item).value, c.state);
    }
  }

  // ----- A shift action -----

  function WithAction(a: Automaton, i: nat, act: Action): Automaton
    requires i < |a.states|
  {
    a.(states := a.states[i := a.states[i].(ap := [act] + a.states[i].ap)])
  }

  lemma WithActionPartial(g: Grammar, lam: set<nat>, first: First, a: Automaton, i: nat, act: Action)
    requires Partial(g, lam, first, a) && i < |a.states| && ShiftOk(g, a, i, act)
    ensures Partial(g, lam, first, WithAction(a, i, act)) && Grows(a, WithAction(a, i, act))
  {
    hide IsClosure, ConfigOk, ShiftOk, Leads, Placed, StateOk, Grows;
    WithActionGrows(a, i, act);
    var b := WithAction(a, i, act);
    forall j | 0 <= j < |b.states| ensures StateOk(g, b.states[j]) && Placed(g, b, j) {
      assert StateOk(g, a.states[j]);
      SameItemsStateOk(g, a.states[j], b.states[j]);
      OldPlaced(g, a, b, j);
    }
    forall c ensures IsCfg(b, c) <==> IsCfg(a, c) {}
    forall c | IsCfg(b, c) ensures ConfigOk(g, lam, first, b, c) {
      OldConfigOk(g, lam, first, a, b, c);
    }
    forall j, act' | 0 <= j < |b.states| && act' in b.states[j].ap ensures ShiftOk(g, b, j, act') {
      assert ShiftOk(g, a, j, act');
      OldShiftOk(g, a, b, j, act');
    }
  }

  lemma WithActionGrows(a: Automaton, i: nat, act: Action)
    requires i < |a.states|
    ensures Grows(a, WithAction(a, i, act)) && SameStates(a, WithAction(a, i, act))
  {
  }

  lemma SameItemsStateOk(g: Grammar, s: State, t: State)
    requires StateOk(g, s) && s.basis == t.basis && s.items == t.items
    ensures StateOk(g, t)
  {
  }
}
