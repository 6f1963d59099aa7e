/** The valid-prefix property: as long as there is no error, what has been shifted can still
    become a sentence. */
module ValidPrefixes {
  import opened Grammars
  import opened Derivations
  import opened FirstMeaning
  import opened Automata
  import opened Driver
  import opened Machines
  import opened StackInvariants
  import opened Steps
  import opened Soundness

  /** Every nonterminal that occurs in a rule derives a string of terminals. */
  ghost predicate Productive(g: Grammar) {
    forall r, i | 0 <= r < |g.rules| && 0 <= i < |g.rules[r].rhs| && g.rules[r].rhs[i].Nonterminal? ::
      DerivesTerminals(g, g.rules[r].rhs[i].index)
  }

  ghost predicate DerivesTerminals(g: Grammar, a: nat) {
    exists t :: DerivesFrom(g, t, a) && Terminals(g, Yield(t))
  }

  lemma SymbolTree(g: Grammar, x: Symbol) returns (t: Tree)
    requires WfGrammar(g) && WfSymbol(g, x) && (x.Nonterminal? ==> DerivesTerminals(g, x.index))
    ensures WfTree(g, t) && Spells(x, Root(g, t)) && Terminals(g, Yield(t))
  {
    if x.Nonterminal? {
      t :| DerivesFrom(g, t, x.index) && Terminals(g, Yield(t));
    } else {
      t := Leaf(if x.Terminal? then x.index else x.subs[0]);
    }
  }

  lemma {:induction false} SymbolForest(g: Grammar, syms: seq<Symbol>) returns (f: seq<Tree>)
    requires WfGrammar(g)
    requires forall i | 0 <= i < |syms| ::
      WfSymbol(g, syms[i]) && (syms[i].Nonterminal? ==> DerivesTerminals(g, syms[i].index))
    ensures WfForest(g, f) && SpellsAll(syms, Roots(g, f)) && Terminals(g, YieldAll(f))
  {
    hide WfGrammar, WfSymbol, DerivesTerminals, Terminals, WfTree, Spells;
    if syms == [] {
      f := [];
      TerminalsSplit(g, [], []);
      NoTerminals(g);
    } else {
      var t := SymbolTree(g, syms[0]);
      var rest := SymbolForest(g, syms[1..]);
      f := [t] + rest;
      ForestCons(g, syms, t, rest);
      TerminalsSplit(g, Yield(t), YieldAll(rest));
    }
  }

  lemma NoTerminals(g: Grammar)
    ensures Terminals(g, [])
  {
  }

  /** The rest of a rule derives a string of terminals. */
  lemma RestDerives(g: Grammar, r: nat, d: nat) returns (rest: seq<nat>, rs: seq<nat>, z: seq<nat>)
    requires WfGrammar(g) && Productive(g) && r < |g.rules| && d <= |g.rules[r].rhs|
    ensures SpellsAll(g.rules[r].rhs[d..], rest) && Rightmost(g, rest, rs, z) && Terminals(g, z)
  {
    hide Rightmost;
    var syms := g.rules[r].rhs[d..];
    forall i | 0 <= i < |syms|
      ensures WfSymbol(g, syms[i]) && (syms[i].Nonterminal? ==> DerivesTerminals(g, syms[i].index))
    {
      assert WfRule(g, g.rules[r]);
      assert syms[i] == g.rules[r].rhs[d + i];
    }
    var f := SymbolForest(g, syms);
    RulesDeriveForest(g, f);
    rest, rs, z := Roots(g, f), RulesAll(f), YieldAll(f);
  }

  // ----- Valid items -----

  /** `form` followed by some string of terminals derives from the start symbol. */
  ghost predicate Viable(g: Grammar, form: seq<nat>) {
    exists rs, y :: Terminals(g, y) && Rightmost(g, [g.start], rs, form + y)
  }

  /** The item can lie on a stack that reads `form`: with its left-hand side in place of what is
      in front of the dot the stack is viable. */
  ghost predicate ValidItem(g: Grammar, form: seq<nat>, it: Item) {
    && it.rule < |g.rules| && it.dot <= |form| && it.dot <= |g.rules[it.rule].rhs|
    && SpellsAll(g.rules[it.rule].rhs[..it.dot], form[|form| - it.dot..])
    && Viable(g, form[..|form| - it.dot] + [g.rules[it.rule].lhs])
  }

  /** From the left-hand side to the part in front of the dot and a terminal string. */
  lemma ItemViable(g: Grammar, form: seq<nat>, it: Item)
    requires WfGrammar(g) && Productive(g) && ValidItem(g, form, it)
    ensures Viable(g, form)
  {
    hide Rightmost, WfGrammar, Productive, Spells;
    var rule := g.rules[it.rule];
    var before, front := form[..|form| - it.dot], form[|form| - it.dot..];
    var rs, y :| Terminals(g, y) && Rightmost(g, [g.start], rs, before + [rule.lhs] + y);
    var rest, r2, z := RestDerives(g, it.rule, it.dot);
    assert rule.rhs == rule.rhs[..it.dot] + rule.rhs[it.dot..];
    assert SpellsAll(rule.rhs, front + rest);
    Expand(g, it.rule, front + rest, before, y);
    assert before + (front + rest) + y == form + rest + y by { assert before + front == form; }
    RightmostTrans(g, [g.start], rs, before + [rule.lhs] + y, [it.rule], form + rest + y);
    RightmostUnderPrefix(g, form, rest, r2, z);
    RightmostBeforeTerminals(g, form + rest, r2, form + z, y);
    RightmostTrans(g, [g.start], rs + [it.rule], form + rest + y, r2, form + z + y);
    TerminalsSplit(g, z, y);
    assert form + z + y == form + (z + y);
  }

  /** An item spawned by a valid item is valid. */
  lemma SpawnedValid(g: Grammar, form: seq<nat>, src: Item, it: Item)
    requires WfGrammar(g) && Productive(g) && ValidItem(g, form, src) && Spawns(g, src, it)
    ensures ValidItem(g, form, it)
  {
    hide Rightmost, WfGrammar, Productive, Spells;
    var rule, x := g.rules[src.rule], g.rules[it.rule].lhs;
    var before, front := form[..|form| - src.dot], form[|form| - src.dot..];
    var rs, y :| Terminals(g, y) && Rightmost(g, [g.start], rs, before + [rule.lhs] + y);
    var rest, r2, z := RestDerives(g, src.rule, src.dot + 1);
    SpellsAcross(rule.rhs, src.dot, front, x, rest);
    Expand(g, src.rule, front + [x] + rest, before, y);
    assert before + (front + [x] + rest) + y == form + [x] + rest + y by { assert before + front == form; }
    RightmostTrans(g, [g.start], rs, before + [rule.lhs] + y, [src.rule], form + [x] + rest + y);
    RightmostUnderPrefix(g, form + [x], rest, r2, z);
    RightmostBeforeTerminals(g, form + [x] + rest, r2, form + [x] + z, y);
    RightmostTrans(g, [g.start], rs + [src.rule], form + [x] + rest + y, r2, form + [x] + z + y);
    TerminalsSplit(g, z, y);
    assert form + [x] + z + y == form + [x] + (z + y);
    assert form[..|form| - it.dot] + [x] == form + [x];
    assert Viable(g, form + [x]);
  }

  lemma SpellsAcross(rhs: seq<Symbol>, d: nat, front: seq<nat>, x: nat, rest: seq<nat>)
    requires d < |rhs| && SpellsAll(rhs[..d], front) && rhs[d] == Nonterminal(x) && SpellsAll(rhs[d + 1..], rest)
    ensures SpellsAll(rhs, front + [x] + rest)
  {
    hide Spells;
    assert Spells(Nonterminal(x), x) by { NonterminalSpells(x); }
    forall i | 0 <= i < |rhs| ensures Spells(rhs[i], (front + [x] + rest)[i]) {
      if i < d {
        assert rhs[..d][i] == rhs[i];
      } else if i > d {
        assert rhs[d + 1..][i - d - 1] == rhs[i];
      }
    }
  }

  lemma NonterminalSpells(x: nat)
    ensures Spells(Nonterminal(x), x)
  {
  }

  /** When the kernel of a state is valid all its items are. */
  lemma ClosureValid(g: Grammar, st: State, form: seq<nat>)
    requires WfGrammar(g) && Productive(g) && StateOk(g, st)
    requires forall it | it in st.basis :: ValidItem(g, form, it)
    ensures forall it | it in st.items :: ValidItem(g, form, it)
  {
    hide ValidItem, WfGrammar, Productive;
    var items, d := ItemSet(st.items), set it | it in st.items && ValidItem(g, form, it);
    assert ItemSet(st.basis) <= items;
    forall src, it | src in d && Spawns(g, src, it) ensures it in d {
      SpawnedValid(g, form, src, it);
      assert src in items;
      assert it in items;
    }
    assert items <= d;
    forall it | it in st.items ensures ValidItem(g, form, it) {
      assert it in items;
    }
  }

  // ----- Items on the stack -----

  lemma ValidAdvance(g: Grammar, form: seq<nat>, s: nat, prev: Item, it: Item)
    requires ValidItem(g, form, prev) && it == Advance(prev)
    requires Next(g, prev).Some? && Spells(Next(g, prev).value, s)
    ensures ValidItem(g, form + [s], it)
  {
    hide Viable, Spells;
    var rhs, longer := g.rules[it.rule].rhs, form + [s];
    assert longer[|longer| - it.dot..] == form[|form| - prev.dot..] + [s];
    assert rhs[..it.dot] == rhs[..prev.dot] + [rhs[prev.dot]];
    assert longer[..|longer| - it.dot] == form[..|form| - prev.dot];
  }

  lemma StartValid(g: Grammar, it: Item)
    requires it.dot == 0 && it.rule < |g.rules| && g.rules[it.rule].lhs == g.start
    ensures ValidItem(g, [], it)
  {
    DeriveNothing(g, [g.start]);
    assert [g.start] + [] == [g.start];
    assert Terminals(g, []);
    assert Viable(g, [g.start]);
    var none: seq<nat> := [];
    assert none[..0] + [g.start] == [g.start];
  }

  /** Every item on the stack is valid for what is below it. */
  lemma {:induction false} LevelValid(m: Machine, st: seq<Entry>, form: seq<nat>, k: nat)
    requires Usable(m) && Productive(m.g) && StackOf(m, st, form) && k < |st|
    ensures StateId(m, st[k].stateno) < |m.a.states|
    ensures forall it | it in m.a.states[StateId(m, st[k].stateno)].items :: ValidItem(m.g, form[..k], it)
    decreases k
  {
    hide Usable, ValidItem, Productive, StateOk;
    MachineIsWf(m);
    StatesInRange(m, st, form, k);
    LevelState(m, st[k].stateno);
    var i := StateId(m, st[k].stateno);
    forall it | it in m.a.states[i].basis ensures ValidItem(m.g, form[..k], it) {
      if k == 0 {
        StartHasNoDot(m, it);
        StartValid(m.g, it);
        assert form[..0] == [];
      } else {
        LevelValid(m, st, form, k - 1);
        assert Moves(m, st[k - 1].stateno, form[k - 1], st[k].stateno);
        GoesBack(m.g, m.a, StateId(m, st[k - 1].stateno), form[k - 1], i, it);
        ValidAdvance(m.g, form[..k - 1], form[k - 1], Item(it.rule, it.dot - 1), it);
        assert form[..k] == form[..k - 1] + [form[k - 1]];
      }
    }
    ClosureValid(m.g, m.a.states[i], form[..k]);
  }

  lemma SomeItem(m: Machine, st: seq<Entry>, form: seq<nat>) returns (it: Item)
    requires Usable(m) && StackOf(m, st, form)
    ensures ItemAt(m, st, |st| - 1, it)
  {
    hide Usable, StateOk;
    var k := |form|;
    StatesInRange(m, st, form, k);
    LevelState(m, st[k].stateno);
    MachineIsWf(m);
    if k == 0 {
      it := SomeStartItem(m);
    } else {
      assert Moves(m, st[k - 1].stateno, form[k - 1], st[k].stateno);
      var i, j := StateId(m, st[k - 1].stateno), StateId(m, st[k].stateno);
      var x :| Spells(x, form[k - 1]) && Leads(m.g, m.a, i, x, j);
      var src :| src in m.a.states[i].items && Next(m.g, src) == Some(x);
      it := Advance(src);
      assert src in ItemSet(m.a.states[i].items);
      assert it in ItemSet(m.a.states[j].basis);
      BasisInItems(m.g, m.a.states[j], it);
    }
  }

  lemma SomeStartItem(m: Machine) returns (it: Item)
    requires Usable(m)
    ensures |m.a.states| > 0 && it in m.a.states[0].items
  {
    hide Sane, ShortRules;
    var r :| 0 <= r < |m.g.rules| && m.g.rules[r].lhs == m.g.start;
    it := Item(r, 0);
    assert it in ItemSet(m.a.states[0].basis);
    BasisInItems(m.g, m.a.states[0], it);
  }

  lemma BasisInItems(g: Grammar, st: State, it: Item)
    requires StateOk(g, st) && it in st.basis
    ensures it in st.items
  {
    assert it in ItemSet(st.basis);
    assert it in ItemSet(st.items);
  }

  /** The valid-prefix property.  Without an error since initialisation, the tokens shifted, as
      they were read, are the beginning of a sentence. */
  lemma ShiftedIsPrefix(m: Machine, tokens: seq<nat>, limit: nat)
    requires Usable(m) && Productive(m.g) && Terminals(m.g, tokens) && TablesUsable(m.tb)
    requires var c := Session(m.tb, Idle(m.tb), tokens, limit); Clean(c.log) && c.stack != []
    ensures var c := Session(m.tb, Idle(m.tb), tokens, limit);
      exists u, v :: ReadAllAs(m.g, Toks(c.log), u) && Sentence(m.g, u + v)
  {
    hide Usable, Productive, Session, Safe, StackOf, ReadAllAs, Rightmost, ValidItem;
    IdleIsSafe(m);
    SessionTraced(m, Idle(m.tb), tokens, limit);
    var c := Session(m.tb, Idle(m.tb), tokens, limit);
    var form, u :| StackOf(m, c.stack, form) && Explains(m.g, c.log, form, u);
    MachineIsWf(m);
    var it := SomeItem(m, c.stack, form);
    LevelValid(m, c.stack, form, |c.stack| - 1);
    FormLength(m, c.stack, form);
    assert form[..|form|] == form;
    ItemViable(m.g, form, it);
    var rs, y :| Terminals(m.g, y) && Rightmost(m.g, [m.g.start], rs, form + y);
    RightmostBeforeTerminals(m.g, form, Reds(c.log), u, y);
    RightmostTrans(m.g, [m.g.start], rs, form + y, Reds(c.log), u + y);
    TerminalsSplit(m.g, u, y);
    SentenceIffDerived(m.g, u + y);
    assert ReadAllAs(m.g, Toks(c.log), u) && Sentence(m.g, u + y);
  }
}
