/** What lies on the parser's stack: the start state at the bottom, and above it states that
    each follow from the one below over the symbol read in between. */
module StackInvariants {
  import opened Grammars
  import opened Automata
  import opened Compression
  import opened Emit
  import opened Driver
  import opened Machines

  /** `form` is the sequence of symbols that the levels above the bottom were read as. */
  ghost predicate StackOf(m: Machine, st: seq<Entry>, form: seq<nat>) {
    && |st| == |form| + 1 <= m.tb.depth
    && st[0].stateno == 0 < m.tb.nstate
    && (forall k | 0 <= k < |form| :: Moves(m, st[k].stateno, form[k], st[k + 1].stateno))
    && (forall k | 0 <= k < |form| :: ReadAs(m.g, st[k + 1].major, form[k]))
  }

  lemma StatesInRange(m: Machine, st: seq<Entry>, form: seq<nat>, k: nat)
    requires StackOf(m, st, form) && k < |st|
    ensures st[k].stateno < m.tb.nstate
  {
    if k > 0 {
      assert Moves(m, st[k - 1].stateno, form[k - 1], st[k].stateno);
    }
  }

  lemma StackPrefix(m: Machine, st: seq<Entry>, form: seq<nat>, k: nat)
    requires StackOf(m, st, form) && k < |st|
    ensures StackOf(m, st[..k + 1], form[..k])
  {
    hide Moves, ReadAs;
  }

  lemma StackPush(m: Machine, st: seq<Entry>, form: seq<nat>, e: Entry, x: nat)
    requires StackOf(m, st, form) && |st| < m.tb.depth
    requires Moves(m, st[|st| - 1].stateno, x, e.stateno) && ReadAs(m.g, e.major, x)
    ensures StackOf(m, st + [e], form + [x])
  {
    hide Moves, ReadAs;
  }

  // ----- Items on the stack -----

  /** Item `it` is in the state of level `k`. */
  ghost predicate ItemAt(m: Machine, st: seq<Entry>, k: nat, it: Item)
    requires k < |st|
  {
    StateId(m, st[k].stateno) < |m.a.states| && it in m.a.states[StateId(m, st[k].stateno)].items
  }

  lemma GoesBack(g: Grammar, a: Automaton, i: nat, s: nat, j: nat, it: Item)
    requires Goes(g, a, i, s, j) && it in a.states[j].basis
    ensures i < |a.states| && it.dot > 0
    ensures Item(it.rule, it.dot - 1) in a.states[i].items
    ensures Next(g, Item(it.rule, it.dot - 1)).Some? && Spells(Next(g, Item(it.rule, it.dot - 1)).value, s)
  {
    var x :| Spells(x, s) && Leads(g, a, i, x, j);
    assert it in ItemSet(a.states[j].basis);
    var src :| src in ItemSet(a.states[i].items) && Next(g, src) == Some(x) && Advance(src) == it;
    assert src == Item(it.rule, it.dot - 1);
  }

  /** The part of its rule in front of the dot of an item on level `k` is on the stack, and the
      item started out on the level below that part. */
  lemma {:induction false} ItemOnStack(m: Machine, st: seq<Entry>, form: seq<nat>, k: nat, it: Item)
    requires Usable(m) && StackOf(m, st, form) && k < |st| && ItemAt(m, st, k, it)
    ensures it.dot <= k && WfItem(m.g, it)
    ensures SpellsAll(m.g.rules[it.rule].rhs[..it.dot], form[k - it.dot..k])
    ensures ItemAt(m, st, k - it.dot, Item(it.rule, 0))
    decreases k
  {
    hide Usable, Spells;
    StatesInRange(m, st, form, k);
    LevelState(m, st[k].stateno);
    var i := StateId(m, st[k].stateno);
    if it.dot == 0 {
      ItemIsWf(m.g, m.a, i, it);
    } else {
      ItemOrigin(m.g, m.a.states[i], it);
      if k == 0 {
        StartHasNoDot(m, it);
      } else {
        assert Moves(m, st[k - 1].stateno, form[k - 1], st[k].stateno);
        var i' := StateId(m, st[k - 1].stateno);
        GoesBack(m.g, m.a, i', form[k - 1], i, it);
        var prev := Item(it.rule, it.dot - 1);
        ItemOnStack(m, st, form, k - 1, prev);
        var rhs := m.g.rules[it.rule].rhs;
        assert form[k - it.dot..k] == form[k - it.dot..k - 1] + [form[k - 1]];
        assert rhs[..it.dot] == rhs[..it.dot - 1] + [rhs[it.dot - 1]];
      }
    }
  }

  lemma LevelState(m: Machine, s: nat)
    requires Usable(m) && s < m.tb.nstate
    ensures StateId(m, s) < |m.a.states| && StateOk(m.g, m.a.states[StateId(m, s)])
    ensures s == 0 ==> StateId(m, s) == 0
  {
    hide StateOk, Sane, TablesFor, FallbackAcyclic, ShortRules;
    StateNumber(m, s);
  }

  lemma ItemIsWf(g: Grammar, a: Automaton, i: nat, it: Item)
    requires i < |a.states| && StateOk(g, a.states[i]) && it in a.states[i].items
    ensures WfItem(g, it)
  {
  }

  lemma StartHasNoDot(m: Machine, it: Item)
    requires Usable(m) && it in m.a.states[0].basis
    ensures it.dot == 0 && it.rule < |m.g.rules| && m.g.rules[it.rule].lhs == m.g.start
  {
    hide StateOk, Sane, TablesFor, FallbackAcyclic, ShortRules;
    assert it in ItemSet(m.a.states[0].basis);
  }

  /** Below a complete right-hand side the goto on its left-hand side is there: an accept for the
      start symbol, which happens on the bottom level only, and a shift for any other. */
  lemma GotoHits(m: Machine, st: seq<Entry>, form: seq<nat>, k: nat, r: nat)
    requires Usable(m) && StackOf(m, st, form) && k < |st| && r < |m.g.rules| && ItemAt(m, st, k, Item(r, 0))
    ensures GotoDecision(m, st[k].stateno, m.g.rules[r].lhs).kind ==
            (if m.g.rules[r].lhs == m.g.start then Accept else Shift)
    ensures m.g.rules[r].lhs == m.g.start ==> k == 0
  {
    hide Usable, StackOf, Goes, ActionSane;
    var s := st[k].stateno;
    StatesInRange(m, st, form, k);
    LevelState(m, s);
    ListIsSane(m, s);
    var i := StateId(m, s);
    ItemOrigin(m.g, m.a.states[i], Item(r, 0));
    if Item(r, 0) in m.a.states[i].basis {
      BasisAtBottom(m, st, form, k, Item(r, 0));
    } else {
      var src :| src in m.a.states[i].items && Spawns(m.g, src, Item(r, 0));
      MachineIsWf(m);
      NextIsNotStart(m.g, src);
      assert HasGoto(ListOf(m, s), m.g.rules[r].lhs);
    }
  }

  lemma MachineIsWf(m: Machine)
    requires Usable(m)
    ensures WfGrammar(m.g)
  {
  }

  lemma ListIsSane(m: Machine, s: nat)
    requires Usable(m) && s < m.tb.nstate
    ensures StateId(m, s) < |m.a.states| && ListSane(m.g, m.a, StateId(m, s), ListOf(m, s))
  {
    StateNumber(m, s);
  }

  lemma BasisAtBottom(m: Machine, st: seq<Entry>, form: seq<nat>, k: nat, it: Item)
    requires Usable(m) && StackOf(m, st, form) && k < |st| && it.dot == 0
    requires StateId(m, st[k].stateno) < |m.a.states| && it in m.a.states[StateId(m, st[k].stateno)].basis
    ensures k == 0 && StateId(m, st[k].stateno) == 0
    ensures it.rule < |m.g.rules| && m.g.rules[it.rule].lhs == m.g.start
  {
    hide Usable;
    if k > 0 {
      assert Moves(m, st[k - 1].stateno, form[k - 1], st[k].stateno);
      GoesBack(m.g, m.a, StateId(m, st[k - 1].stateno), form[k - 1], StateId(m, st[k].stateno), it);
    } else {
      LevelState(m, st[0].stateno);
      StartHasNoDot(m, it);
    }
  }
}
