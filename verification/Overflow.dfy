/** A stack that is not deep enough for a sentence overflows: the depth that the parse tree needs
    is exact. */
module Overflow {
  import opened Grammars
  import opened Derivations
  import opened FirstMeaning
  import opened Automata
  import opened Actions
  import opened ParserTables
  import opened Driver
  import opened Machines
  import opened StackInvariants
  import opened Steps
  import opened Soundness
  import opened Walks
  import opened Completeness

  /** The run from `c` comes to an overflow after supplying a part of `q`. */
  ghost predicate Overflows(m: Machine, c: Config, q: seq<nat>, d: Config, used: seq<nat>)
    requires TablesUsable(m.tb)
  {
    used <= q && Walk(m.tb, c, used, d) && d.stack == [] && d.log != [] && d.log[|d.log| - 1] == Overflowed
  }

  lemma ShiftOverflows(m: Machine, q: Sets, c: Config, form: seq<nat>, it: Item, z: nat, x: Symbol,
        s: nat) returns (d: Config)
    requires Setting(m, q) && At(m, q, c.stack, form, it, z) && Next(m.g, it) == Some(x) && Spells(x, s)
    requires Pending(m, c, s) && |c.stack| >= m.tb.depth
    ensures TablesUsable(m.tb) && Overflows(m, c, [], d, [])
  {
    hide Setting, Usable, Partial, WfGrammar, WfTables, StackOf, Step, Clean, IsRaw, Walk, ReduceStep, ErrorStep,
         ShiftDecision, Moves, ReadAs;
    SettingParts(m, q);
    var j := Advanced(m, q, c.stack, form, it, z, x, s);
    TopInRange(m, c.stack, form);
    RawDecided(m, q, Top(c.stack).stateno, Action(s, Shift, j));
    StepShape(m, c, form);
    WalkStep(m.tb, c);
    d := Step(m.tb, c);
  }

  lemma ReduceOverflows(m: Machine, q: Sets, c: Config, form: seq<nat>, r: nat, z: nat, it: Item,
        z0: nat) returns (d: Config)
    requires Setting(m, q) && r < |m.g.rules| && m.g.rules[r].rhs == [] && At(m, q, c.stack, form, Item(r, 0), z)
    requires Pending(m, c, z)
    requires At(m, q, c.stack, form, it, z0) && Next(m.g, it) == Some(Nonterminal(m.g.rules[r].lhs))
    requires |c.stack| >= m.tb.depth
    ensures TablesUsable(m.tb) && Overflows(m, c, [], d, [])
  {
    hide Setting, Usable, Partial, WfGrammar, WfTables, StackOf, Step, Clean, IsRaw, Walk, ReduceStep, GotoDecision,
         Moves, SpellsAll;
    SettingParts(m, q);
    TopInRange(m, c.stack, form);
    ReduceNode(m, q, c, form, r, z);
    NextIsNotStart(m.g, it);
    ReduceShape(m, c, form, r);
    WalkStep(m.tb, c);
    d := Step(m.tb, c);
  }

  lemma {:induction false} TreeOverflows(m: Machine, q: Sets, c: Config, form: seq<nat>, it: Item, z: nat, x: Symbol,
        t: Tree, z1: nat)
    returns (d: Config, used: seq<nat>)
    requires Setting(m, q) && At(m, q, c.stack, form, it, z) && Next(m.g, it) == Some(x)
    requires WfTree(m.g, t) && Spells(x, Root(m.g, t)) && Terminals(m.g, Yield(t)) && z1 < m.g.nterminal
    requires t.Node? ==> At(m, q, c.stack, form, Item(t.rule, 0), z1)
    requires Pending(m, c, Ahead(Yield(t), z1)) && |c.stack| + Need(t) > m.tb.depth
    ensures TablesUsable(m.tb) && Overflows(m, c, Later(Yield(t), z1), d, used)
    decreases t, 0
  {
    hide Setting, Walk, Clean, At, Terminals;
    SettingParts(m, q);
    NextIsNotStart(m.g, it);
    match t
    case Leaf(s) =>
      d := ShiftOverflows(m, q, c, form, it, z, x, s);
      used := [];
    case Node(r, kids) =>
      NodeSpellsNonterminal(m.g, x, t);
      assert m.g.rules[r].rhs[0..] == m.g.rules[r].rhs;
      if kids == [] {
        assert Yield(t) == [] && Ahead([], z1) == z1;
        d := ReduceOverflows(m, q, c, form, r, z1, it, z);
        used := [];
      } else {
        d, used := ForestOverflows(m, q, c, form, Item(r, 0), z1, kids);
      }
  }

  lemma {:induction false} ForestOverflows(m: Machine, q: Sets, c: Config, form: seq<nat>,
                                           it: Item, z: nat, f: seq<Tree>)
    returns (d: Config, used: seq<nat>)
    requires Setting(m, q) && At(m, q, c.stack, form, it, z) && f != []
    requires it.rule < |m.g.rules| && it.dot + |f| == |m.g.rules[it.rule].rhs|
    requires WfForest(m.g, f) && SpellsAll(m.g.rules[it.rule].rhs[it.dot..], Roots(m.g, f))
    requires Terminals(m.g, YieldAll(f))
    requires Pending(m, c, Ahead(YieldAll(f), z)) && |c.stack| + NeedAll(f) > m.tb.depth
    ensures TablesUsable(m.tb) && Overflows(m, c, Later(YieldAll(f), z), d, used)
    decreases f, 1
  {
    hide Setting, Usable, Partial, WfGrammar, WfTables, Walk, Did, Clean, At, Pending, Terminals, WfTree, WfForest,
         SpellsAll, Yield, YieldAll, Need, NeedAll, Rules, RulesAll;
    SettingParts(m, q);
    var x, z1 := m.g.rules[it.rule].rhs[it.dot], Ahead(YieldAll(f[1..]), z);
    FirstTree(m, q, c, form, it, z, f);
    var ahead, later := Later(Yield(f[0]), z1), Later(YieldAll(f[1..]), z);
    if |c.stack| + Need(f[0]) > m.tb.depth {
      d, used := TreeOverflows(m, q, c, form, it, z, x, f[0], z1);
    } else {
      StackFits(m, q, c.stack, form, it, z);
      NothingNeeded();
      var d1, form1 := ParseTree(m, q, c, form, it, z, x, f[0], z1);
      StackFits(m, q, d1.stack, form1, Advance(it), z);
      var rest;
      d, rest := ForestOverflows(m, q, d1, form1, Advance(it), z, f[1..]);
      WalkTrans(m.tb, c, ahead, d1, rest, d);
      used := ahead + rest;
    }
  }

  lemma StackFits(m: Machine, q: Sets, st: seq<Entry>, form: seq<nat>, it: Item, z: nat)
    requires At(m, q, st, form, it, z)
    ensures |st| <= m.tb.depth
  {
  }

  lemma NothingNeeded()
    ensures NeedAll([]) == 0
  {
  }

  /** The calls with the tokens of `p` end with an overflow. */
  ghost predicate OverflowsOn(m: Machine, p: seq<nat>, limit: nat)
    requires TablesUsable(m.tb)
  {
    var c := Session(m.tb, Idle(m.tb), p, limit);
    c.stack == [] && c.log != [] && c.log[|c.log| - 1] == Overflowed
  }

  lemma SentenceOverflows(m: Machine, q: Sets, t: Tree, w: seq<nat>) returns (limit: nat, p: seq<nat>)
    requires Setting(m, q) && ParseOf(m.g, t, w) && NeedAll(t.kids) >= m.tb.depth
    ensures TablesUsable(m.tb) && p <= w + [0]
    ensures forall k: nat | k >= limit :: OverflowsOn(m, p, k)
  {
    hide Setting, Usable, Walk, Clean, At, Session, Step;
    SettingParts(m, q);
    var r, c0 := t.rule, Idle(m.tb);
    StartAt(m, q, r);
    var c := Begin(c0, Ahead(w, 0));
    AheadIsTerminal(m, w, 0);
    EmptyClean();
    assert m.g.rules[r].rhs[0..] == m.g.rules[r].rhs;
    StartState(m);
    NothingNeeded();
    var d, used := ForestOverflows(m, q, c, [], Item(r, 0), 0, t.kids);
    limit := WalkIsSession(m.tb, c0, Ahead(w, 0), used, d);
    p := [Ahead(w, 0)] + used;
    assert [Ahead(w, 0)] + Later(w, 0) == w + [0];
  }

  /** The depth that a parse tree needs is exact: below it the parser overflows in the middle of
      the sentence, from it on the sentence is accepted. */
  lemma DepthIsExact(m: Machine, q: Sets, t: Tree, w: seq<nat>) returns (limit: nat, p: seq<nat>)
    requires Setting(m, q) && ParseOf(m.g, t, w)
    ensures TablesUsable(m.tb) && p <= w + [0]
    ensures if NeedAll(t.kids) < m.tb.depth
      then forall k: nat | k >= limit :: Parses(Session(m.tb, Idle(m.tb), w + [0], k), w, Rules(t))
      else forall k: nat | k >= limit :: OverflowsOn(m, p, k)
  {
    hide Setting, Session, Parses, OverflowsOn;
    if NeedAll(t.kids) < m.tb.depth {
      limit := SentenceAccepted(m, q, t, w);
      p := [];
    } else {
      limit, p := SentenceOverflows(m, q, t, w);
    }
  }
}
