/** The parsers of grammars with one rule and no substitutes, and two inputs that show what the
    driver does with them: an accept in the middle of the input, and an error that is passed over
    in silence after three shifted tokens. */
module OneRules {
  import opened Grammars
  import opened FirstSets
  import opened Automata
  import opened Actions
  import opened Compression
  import opened ActTabs
  import opened ParserTables
  import opened Report
  import opened Emit
  import opened Driver
  import opened Machines
  import opened StackInvariants
  import opened Steps
  import opened Soundness
  import opened OneCall
  import opened Completeness
  import opened Renumbering
  import opened Lookaheads
  import opened Products

  ghost predicate OneRule(g: Grammar) {
    && WfGrammar(g) && NoSubstitutes(g) && |g.rules| == 1 && g.rules[0].lhs == g.start
    && forall i | 0 <= i < |g.rules[0].rhs| :: !g.rules[0].rhs[i].Multiterminal?
  }

  /** State `i` stands after the first `k` symbols of the rule. */
  ghost predicate Linear(g: Grammar, a: Automaton, i: nat, k: nat) {
    && |g.rules| == 1 && i < |a.states| && k <= |g.rules[0].rhs|
    && ItemSet(a.states[i].items) == {Item(0, k)}
  }

  lemma LinearItems(g: Grammar, a: Automaton, i: nat, k: nat, it: Item)
    requires Linear(g, a, i, k)
    ensures it in a.states[i].items <==> it == Item(0, k)
  {
    assert it in a.states[i].items <==> it in ItemSet(a.states[i].items);
  }

  lemma SpawnsNothing(g: Grammar, src: Item, it: Item)
    requires OneRule(g)
    ensures !Spawns(g, src, it)
  {
    if Next(g, src).Some? {
      NextIsNotStart(g, src);
    }
  }

  lemma NothingSpawned(g: Grammar, k: nat)
    requires OneRule(g)
    ensures Closed(g, {Item(0, k)})
  {
    forall src, it ensures !Spawns(g, src, it) {
      SpawnsNothing(g, src, it);
    }
  }

  lemma StartIsLinear(m: Machine, q: Sets, aps0: seq<seq<Action>>, compress: bool)
    requires Generated(m, q, aps0, compress) && OneRule(m.g)
    ensures Linear(m.g, m.a, 0, 0)
  {
    hide Usable, ActionTable, FirstSetsOf, ExactFollow, ListMade, Collection, WfGrammar, NoSubstitutes;
    NothingSpawned(m.g, 0);
    assert StartItems(m.g) == {Item(0, 0)};
    StartStateItems(m, q, aps0, compress, {Item(0, 0)});
  }

  lemma LeadsLinear(m: Machine, q: Sets, aps0: seq<seq<Action>>, compress: bool, i: nat, k: nat, x: Symbol, j: nat)
    requires Generated(m, q, aps0, compress) && OneRule(m.g) && Linear(m.g, m.a, i, k) && Leads(m.g, m.a, i, x, j)
    ensures k < |m.g.rules[0].rhs| && x == m.g.rules[0].rhs[k] && Linear(m.g, m.a, j, k + 1)
  {
    hide Usable, ActionTable, FirstSetsOf, ExactFollow, ListMade, Collection, WfGrammar, NoSubstitutes;
    var it :| it in m.a.states[i].items && Next(m.g, it) == Some(x);
    LinearItems(m.g, m.a, i, k, it);
    var goto_ := GotoSet(m.g, ItemSet(m.a.states[i].items), x);
    assert goto_ == {Item(0, k + 1)};
    NothingSpawned(m.g, k + 1);
    GotoState(m, q, aps0, compress, i, x, j);
  }

  /** In the middle of the rule the state shifts the next symbol and does nothing else. */
  lemma LinearRaw(m: Machine, q: Sets, aps0: seq<seq<Action>>, compress: bool, i: nat, k: nat, act: Action)
    requires Generated(m, q, aps0, compress) && OneRule(m.g) && Linear(m.g, m.a, i, k) && k < |m.g.rules[0].rhs|
    requires IsRaw(m.g, m.a, q.f, i, act)
    ensures act.kind == Shift || act == Action(m.g.start, Accept, 0)
    ensures act.kind == Shift ==> Spells(m.g.rules[0].rhs[k], act.sp) && Linear(m.g, m.a, act.target, k + 1)
  {
    hide Usable, ActionTable, FirstSetsOf, ExactFollow, ListMade, Collection, WfGrammar, NoSubstitutes, IsRaw, Leads;
    RawCases(m, q, aps0, compress, i, act);
    if act.kind == Shift {
      var it :| it in m.a.states[i].items && Next(m.g, it).Some? && Spells(Next(m.g, it).value, act.sp) &&
        Leads(m.g, m.a, i, Next(m.g, it).value, act.target);
      LinearItems(m.g, m.a, i, k, it);
      LeadsLinear(m, q, aps0, compress, i, k, Next(m.g, it).value, act.target);
    } else if act.kind == Reduce {
      LinearItems(m.g, m.a, i, k, Item(act.target, |m.g.rules[act.target].rhs|));
    }
  }

  /** The list of such a state: one shift, and in state 0 the accept. */
  lemma LinearList(m: Machine, q: Sets, aps0: seq<seq<Action>>, compress: bool, i: nat, k: nat)
    requires Generated(m, q, aps0, compress) && OneRule(m.g) && Linear(m.g, m.a, i, k) && k < |m.g.rules[0].rhs|
    ensures i < |m.aps| && UniqueLive(m.aps[i])
    ensures forall act | act in m.aps[i] && Live(act) :: IsRaw(m.g, m.a, q.f, i, act)
    ensures forall act | IsRaw(m.g, m.a, q.f, i, act) :: LiveOn(m.aps[i], act.sp).Some?
  {
    hide Usable, FirstSetsOf, ExactFollow, Collection, WfGrammar, NoSubstitutes, IsRaw, Linear, UniqueLive, ListMade;
    LinearInRange(m, q, aps0, compress, i, k);
    forall act | IsRaw(m.g, m.a, q.f, i, act) ensures act.kind != Reduce {
      LinearRaw(m, q, aps0, compress, i, k, act);
    }
    NoReduceKeepsList(m, q, aps0, compress, i);
    assert ActionsFor(m.g, m.a, q.f, i, aps0[i]);
    forall act | IsRaw(m.g, m.a, q.f, i, act) ensures LiveOn(m.aps[i], act.sp).Some? {
      assert SomeLive(aps0[i], act.sp);
    }
  }

  lemma LinearInRange(m: Machine, q: Sets, aps0: seq<seq<Action>>, compress: bool, i: nat, k: nat)
    requires Generated(m, q, aps0, compress) && Linear(m.g, m.a, i, k)
    ensures i < |aps0| == |m.aps| == |m.a.states|
  {
    hide Generated;
    GeneratedIsUsable(m, q, aps0, compress);
  }

  /** On the next symbol the decision is its shift, on any other terminal it is an error. */
  lemma LinearDecision(m: Machine, q: Sets, aps0: seq<seq<Action>>, compress: bool, s: nat, k: nat, t: nat)
    requires Generated(m, q, aps0, compress) && OneRule(m.g) && s < m.tb.nstate && Linear(m.g, m.a, StateId(m, s), k)
    requires k < |m.g.rules[0].rhs| && t < m.g.nterminal
    ensures var e := ShiftDecision(m, s, t);
      if m.g.rules[0].rhs[k] == Terminal(t) then e.kind == Shift && Linear(m.g, m.a, e.target, k + 1)
      else e == ERROR_EFFECT
  {
    hide Usable, FirstSetsOf, ExactFollow, Collection, ActionTable, ListMade, IsRaw, UniqueLive;
    GeneratedIsUsable(m, q, aps0, compress);
    var i, x := StateId(m, s), m.g.rules[0].rhs[k];
    StateNumber(m, s);
    MachineTables(m);
    LinearList(m, q, aps0, compress, i, k);
    assert WfRule(m.g, m.g.rules[0]) && WfSymbol(m.g, x);
    var own := LiveOn(m.aps[i], t);
    if own.Some? {
      LinearRaw(m, q, aps0, compress, i, k, own.value);
    }
    if x == Terminal(t) {
      LinearItems(m.g, m.a, i, k, Item(0, k));
      var j := Transition(m, q, aps0, compress, i, Item(0, k));
      assert IsRaw(m.g, m.a, q.f, i, Action(t, Shift, j));
    } else {
      var d := LiveOn(m.aps[i], m.g.nsymbol);
      if d.Some? {
        LinearRaw(m, q, aps0, compress, i, k, d.value);
      }
    }
  }

  /** The goto on a nonterminal that is the next symbol. */
  lemma LinearGoto(m: Machine, q: Sets, aps0: seq<seq<Action>>, compress: bool, s: nat, k: nat, x: nat)
    requires Generated(m, q, aps0, compress) && OneRule(m.g) && s < m.tb.nstate && Linear(m.g, m.a, StateId(m, s), k)
    requires k < |m.g.rules[0].rhs| && m.g.rules[0].rhs[k] == Nonterminal(x)
    ensures var e := GotoDecision(m, s, x); e.kind == Shift && Linear(m.g, m.a, e.target, k + 1)
  {
    hide Usable, FirstSetsOf, ExactFollow, Collection, ActionTable, ListMade, IsRaw, UniqueLive;
    GeneratedIsUsable(m, q, aps0, compress);
    var i := StateId(m, s);
    StateNumber(m, s);
    LinearList(m, q, aps0, compress, i, k);
    LinearItems(m.g, m.a, i, k, Item(0, k));
    var j := Transition(m, q, aps0, compress, i, Item(0, k));
    assert IsRaw(m.g, m.a, q.f, i, Action(x, Shift, j));
    NextIsNotStart(m.g, Item(0, k));
    LinearRaw(m, q, aps0, compress, i, k, LiveOn(m.aps[i], x).value);
  }

  // ----- An error in silence -----

  /** s ::= error A A A B.  A is terminal 1 and B is terminal 2. */
  function RecoveringGrammar(): Grammar {
    Grammar(3, 5, [Rule(4, [Nonterminal(3), Terminal(1), Terminal(1), Terminal(1), Terminal(2)], None)], 4, 3,
            [-1, -1, -1], [UnknownAssoc, UnknownAssoc, UnknownAssoc], [0, 0, 0], None)
  }

  lemma RecoveringIsOneRule()
    ensures OneRule(RecoveringGrammar())
  {
    var g := RecoveringGrammar();
    assert g.rules[0].lhs == g.start;
    assert WfRule(g, g.rules[0]);
  }

  /** The parser stands after `k` symbols of the rule. */
  ghost predicate StandsAt(m: Machine, c: Config, k: nat) {
    && Safe(m, c) && c.stack != [] && Top(c.stack).stateno < m.tb.nstate
    && Linear(m.g, m.a, StateId(m, Top(c.stack).stateno), k)
  }

  lemma ShiftsNext(m: Machine, q: Sets, aps0: seq<seq<Action>>, compress: bool, c: Config, k: nat)
    requires Generated(m, q, aps0, compress) && OneRule(m.g) && StandsAt(m, c, k) && k < |m.g.rules[0].rhs|
    requires m.g.rules[0].rhs[k] == Terminal(c.major) && 0 < c.major < m.g.nterminal && !c.endofinput
    requires |c.stack| < m.tb.depth
    ensures TablesUsable(m.tb)
    ensures var d := Step(m.tb, c);
      StandsAt(m, d, k + 1) && |d.stack| == |c.stack| + 1 && d.errcnt == c.errcnt - 1 && d.major == m.tb.NoCode() &&
      d.log == c.log + [Shifted(c.major)]
  {
    hide Usable, Generated, StackOf, Moves, Step, ReduceStep, ErrorStep, ReadAs, ShiftDecision, Linear, OneRule;
    GeneratedIsUsable(m, q, aps0, compress);
    var form :| StackOf(m, c.stack, form);
    StepShape(m, c, form);
    LinearDecision(m, q, aps0, compress, Top(c.stack).stateno, k, c.major);
    var j := ShiftDecision(m, Top(c.stack).stateno, c.major).target;
    LinearState(m, j, k + 1);
    StepSafe(m, c);
  }

  lemma LinearState(m: Machine, j: nat, k: nat)
    requires Usable(m) && Linear(m.g, m.a, j, k)
    ensures j < |m.num| && m.num[j] < m.tb.nstate && StateId(m, m.num[j]) == j
  {
    hide Usable;
    SizesAgree(m);
    NumberOfState(m, j);
  }

  lemma ErrsAt(m: Machine, q: Sets, aps0: seq<seq<Action>>, compress: bool, c: Config, k: nat)
    requires Generated(m, q, aps0, compress) && OneRule(m.g) && StandsAt(m, c, k) && k < |m.g.rules[0].rhs|
    requires m.g.rules[0].rhs[k] != Terminal(c.major) && c.major < m.g.nterminal
    ensures TablesUsable(m.tb) && Step(m.tb, c) == ErrorStep(m.tb, c)
  {
    hide Usable, Generated, StackOf, Moves, Step, ReduceStep, ErrorStep, ReadAs, ShiftDecision, Linear, OneRule;
    GeneratedIsUsable(m, q, aps0, compress);
    var form :| StackOf(m, c.stack, form);
    StepShape(m, c, form);
    LinearDecision(m, q, aps0, compress, Top(c.stack).stateno, k, c.major);
  }

  lemma FreshParser(m: Machine, q: Sets, aps0: seq<seq<Action>>, compress: bool, t: nat)
    requires Generated(m, q, aps0, compress) && OneRule(m.g) && t < m.g.nterminal
    ensures StandsAt(m, Begin(Idle(m.tb), t), 0) && StackOf(m, [Entry(0, 0)], [])
  {
    hide Usable, Generated, OneRule, Linear;
    GeneratedIsUsable(m, q, aps0, compress);
    IdleIsSafe(m);
    BeginSafe(m, Idle(m.tb), t);
    StartIsLinear(m, q, aps0, compress);
    LevelState(m, 0);
    StartStack(m);
  }

  lemma NextCall(m: Machine, c: Config, t: nat, k: nat)
    requires Usable(m) && StandsAt(m, c, k) && t < m.g.nterminal
    ensures StandsAt(m, Begin(c, t), k) && Begin(c, t).stack == c.stack && Begin(c, t).errcnt == c.errcnt
    ensures Begin(c, t).log == c.log && Begin(c, t).major == t && Begin(c, t).endofinput == (t == 0)
    ensures !Begin(c, t).errorhit
  {
    hide Usable, IsPath;
  }

  /** The error on the first token: it is reported, and the error symbol is pushed. */
  lemma FirstError(m: Machine, q: Sets, aps0: seq<seq<Action>>, compress: bool)
    requires Generated(m, q, aps0, compress) && m.g == RecoveringGrammar() && m.tb.depth >= 5
    ensures TablesUsable(m.tb)
    ensures var d := Step(m.tb, Begin(Idle(m.tb), 1));
      StandsAt(m, d, 1) && |d.stack| == 2 && d.errcnt == 3 && d.major == 1 && !d.endofinput &&
      d.log == [Errored(1, true), ErrorShifted]
  {
    hide Usable, Generated, StackOf, Moves, Step, ErrorStep, GotoDecision, Linear, OneRule, PopToError;
    RecoveringIsOneRule();
    GeneratedIsUsable(m, q, aps0, compress);
    FreshParser(m, q, aps0, compress, 1);
    var c := Begin(Idle(m.tb), 1);
    assert c.stack == [Entry(0, 0)];
    ErrsAt(m, q, aps0, compress, c, 0);
    LinearGoto(m, q, aps0, compress, 0, 0, 3);
    ErrorShape(m, c, []);
    PopStopsAtTopmost(m, c.stack, []);
    var j := GotoDecision(m, 0, 3).target;
    assert PopToError(m.tb, c.stack) == [Entry(0, 0)] by {
      assert ShiftsError(m, c.stack[0]);
    }
    LinearState(m, j, 1);
    StepSafe(m, c);
    MachineUsable(m);
  }

  /** One more A is shifted by a call of its own. */
  lemma OneMore(m: Machine, q: Sets, aps0: seq<seq<Action>>, compress: bool, c: Config, k: nat, limit: nat)
    requires Generated(m, q, aps0, compress) && m.g == RecoveringGrammar() && m.tb.depth >= 5
    requires StandsAt(m, c, k) && 1 <= k <= 3 && |c.stack| == k + 1 && limit >= 1
    ensures TablesUsable(m.tb)
    ensures var d := Run(m.tb, Begin(c, 1), limit);
      StandsAt(m, d, k + 1) && |d.stack| == k + 2 && d.errcnt == c.errcnt - 1 && d.major == m.tb.NoCode() &&
      d.log == c.log + [Shifted(1)]
  {
    hide Usable, Generated, Step, Linear, OneRule, Safe, Begin;
    RecoveringIsOneRule();
    GeneratedIsUsable(m, q, aps0, compress);
    NextCall(m, c, 1, k);
    ShiftsNext(m, q, aps0, compress, Begin(c, 1), k);
    MachineUsable(m);
    RunOne(m.tb, Begin(c, 1), limit);
    RunStopped(m.tb, Step(m.tb, Begin(c, 1)), limit - 1);
  }

  /** Fed with A A A A every parser for the grammar reports the error on the first A, shifts three
      tokens, and passes over the error on the fourth in silence. */
  lemma ThreeAreNotEnough(m: Machine, q: Sets, aps0: seq<seq<Action>>, compress: bool, limit: nat)
    requires Generated(m, q, aps0, compress) && m.g == RecoveringGrammar() && m.tb.depth >= 5 && limit >= 2
    ensures TablesUsable(m.tb)
    ensures [Errored(1, true), ErrorShifted, Shifted(1), Shifted(1), Shifted(1), Errored(1, false)]
            <= Session(m.tb, Idle(m.tb), [1, 1, 1, 1], limit).log
  {
    hide Usable, Generated, Step, Linear, OneRule, Safe, Begin, Run, Session, ErrorStep, StandsAt;
    RecoveringIsOneRule();
    GeneratedIsUsable(m, q, aps0, compress);
    var tb := m.tb;
    var c1 := FirstCall(m, q, aps0, compress, limit);
    var c2 := Run(tb, Begin(c1, 1), limit);
    OneMore(m, q, aps0, compress, c1, 2, limit);
    var c3 := Run(tb, Begin(c2, 1), limit);
    OneMore(m, q, aps0, compress, c2, 3, limit);
    var c4 := Run(tb, Begin(c3, 1), limit);
    LastCall(m, q, aps0, compress, c3, limit);
    SessionSnoc(tb, Idle(tb), [], 1, limit);
    SessionSnoc(tb, Idle(tb), [1], 1, limit);
    SessionSnoc(tb, Idle(tb), [1, 1], 1, limit);
    SessionSnoc(tb, Idle(tb), [1, 1, 1], 1, limit);
    SessionOfNothing(tb, limit);
    assert [] + [1] == [1] && [1] + [1] == [1, 1] && [1, 1] + [1] == [1, 1, 1] && [1, 1, 1] + [1] == [1, 1, 1, 1];
    assert Session(tb, Idle(tb), [1, 1, 1, 1], limit) == c4;
    assert c3.log == [Errored(1, true), ErrorShifted, Shifted(1), Shifted(1), Shifted(1)];
  }

  lemma FirstCall(m: Machine, q: Sets, aps0: seq<seq<Action>>, compress: bool, limit: nat) returns (c1: Config)
    requires Generated(m, q, aps0, compress) && m.g == RecoveringGrammar() && m.tb.depth >= 5 && limit >= 2
    ensures TablesUsable(m.tb) && c1 == Run(m.tb, Begin(Idle(m.tb), 1), limit)
    ensures StandsAt(m, c1, 2) && |c1.stack| == 3 && c1.errcnt == 2 && c1.major == m.tb.NoCode()
    ensures c1.log == [Errored(1, true), ErrorShifted, Shifted(1)]
  {
    hide Usable, Generated, Step, Linear, OneRule, Safe;
    RecoveringIsOneRule();
    GeneratedIsUsable(m, q, aps0, compress);
    MachineUsable(m);
    var b := Begin(Idle(m.tb), 1);
    FirstError(m, q, aps0, compress);
    var d := Step(m.tb, b);
    ShiftsNext(m, q, aps0, compress, d, 1);
    c1 := Step(m.tb, d);
    RunOne(m.tb, b, limit);
    RunOne(m.tb, d, limit - 1);
    RunStopped(m.tb, c1, limit - 2);
  }

  lemma LastCall(m: Machine, q: Sets, aps0: seq<seq<Action>>, compress: bool, c: Config, limit: nat)
    requires Generated(m, q, aps0, compress) && m.g == RecoveringGrammar() && limit >= 1
    requires StandsAt(m, c, 4) && c.errcnt == 0
    ensures TablesUsable(m.tb) && c.log + [Errored(1, false)] <= Run(m.tb, Begin(c, 1), limit).log
  {
    hide Usable, Generated, Step, Linear, OneRule, Safe, ErrorStep, Begin;
    RecoveringIsOneRule();
    GeneratedIsUsable(m, q, aps0, compress);
    MachineUsable(m);
    NextCall(m, c, 1, 4);
    var b := Begin(c, 1);
    ErrsAt(m, q, aps0, compress, b, 4);
    ErrorIsLogged(m.tb, b);
    RunOne(m.tb, b, limit);
    RunKeepsLog(m.tb, Step(m.tb, b), limit - 1);
  }

  // ----- An accept in the middle of the input -----

  /** s ::= A.  A is terminal 1. */
  function SingleGrammar(): Grammar {
    Grammar(2, 4, [Rule(3, [Terminal(1)], None)], 3, 2, [-1, -1], [UnknownAssoc, UnknownAssoc], [0, 0], None)
  }

  lemma SingleIsOneRule()
    ensures OneRule(SingleGrammar())
  {
    var g := SingleGrammar();
    assert g.rules[0].lhs == g.start;
    assert WfRule(g, g.rules[0]);
  }

  /** The tables for it: one shift, one accept, and in the second state the default reduce. */
  function SingleTables(depth: nat): Tables {
    Tables(2, 1, 4, [1, 4], [1, 3], [-1], -2, [-2], -3, [3, 2], [], None, [RuleInfo(3, 1)], 2, depth)
  }

  ghost predicate Single(m: Machine, q: Sets, aps0: seq<seq<Action>>) {
    Generated(m, q, aps0, true) && m.g == SingleGrammar()
  }

  /** The automaton has two states. */
  lemma SingleStates(m: Machine, q: Sets, aps0: seq<seq<Action>>)
    requires Single(m, q, aps0)
    ensures |m.a.states| == 2 && Linear(m.g, m.a, 0, 0) && Linear(m.g, m.a, 1, 1)
    ensures IsRaw(m.g, m.a, q.f, 0, Action(1, Shift, 1))
  {
    hide Usable, ActionTable, FirstSetsOf, ExactFollow, ListMade, IsRaw, OneRule, StateOk, ConfigOk, ShiftOk, KeysOk,
         Done;
    SingleIsOneRule();
    StartIsLinear(m, q, aps0, true);
    LinearItems(m.g, m.a, 0, 0, Item(0, 0));
    var j := Transition(m, q, aps0, true, 0, Item(0, 0));
    LeadsLinear(m, q, aps0, true, 0, 0, Terminal(1), j);
    LinearApart(m, j);
    SingleOther(m, q, aps0, 1, j);
    if |m.a.states| > 2 {
      SingleOther(m, q, aps0, 2, j);
    }
  }

  lemma LinearApart(m: Machine, j: nat)
    requires m.g == SingleGrammar() && Linear(m.g, m.a, 0, 0) && Linear(m.g, m.a, j, 1)
    ensures j != 0
  {
    assert Item(0, 1) !in {Item(0, 0)};
  }

  lemma {:induction false} SingleOther(m: Machine, q: Sets, aps0: seq<seq<Action>>, i: nat, j: nat)
    requires Single(m, q, aps0) && 0 < i < |m.a.states| && Linear(m.g, m.a, 0, 0)
    requires Leads(m.g, m.a, 0, Terminal(1), j) && Linear(m.g, m.a, j, 1)
    ensures i == j
    decreases i
  {
    hide Usable, ActionTable, FirstSetsOf, ExactFollow, ListMade, OneRule, StateOk, ConfigOk, ShiftOk, KeysOk, Done;
    SingleIsOneRule();
    assert Automata.Placed(m.g, m.a, i);
    var h: nat, x :| h < i && Leads(m.g, m.a, h, x, i);
    if h > 0 {
      SingleOther(m, q, aps0, h, j);
      LeadsLinear(m, q, aps0, true, h, 1, x, i);
    } else {
      LeadsLinear(m, q, aps0, true, 0, 0, x, i);
      LeadsUnique(m.g, q.lam, q.first, m.a, 0, Terminal(1), i, j);
    }
  }

  /** Its complete configuration waits for the end of the input. */
  lemma SingleReduce(m: Machine, q: Sets, aps0: seq<seq<Action>>, act: Action)
    requires Single(m, q, aps0)
    ensures IsRaw(m.g, m.a, q.f, 1, act) <==> act == Action(0, Reduce, 0)
  {
    hide Usable, ActionTable, FirstSetsOf, ExactFollow, ListMade, Collection, OneRule;
    SingleIsOneRule();
    GeneratedIsUsable(m, q, aps0, true);
    SingleStates(m, q, aps0);
    LinearItems(m.g, m.a, 1, 1, Item(0, 1));
    SingleFollow(m, q, aps0);
    if IsRaw(m.g, m.a, q.f, 1, act) {
      RawCases(m, q, aps0, true, 1, act);
      if act.kind == Shift {
        var it :| it in m.a.states[1].items && Next(m.g, it).Some?;
        LinearItems(m.g, m.a, 1, 1, it);
      } else {
        LinearItems(m.g, m.a, 1, 1, Item(act.target, |m.g.rules[act.target].rhs|));
      }
    }
  }

  lemma SingleFollow(m: Machine, q: Sets, aps0: seq<seq<Action>>)
    requires Single(m, q, aps0)
    ensures Cfg(1, Item(0, 1)) in q.f && q.f[Cfg(1, Item(0, 1))] == {0}
  {
    hide Usable, ActionTable, FirstSetsOf, ExactFollow, ListMade, OneRule, Partial, IsRaw;
    SingleIsOneRule();
    GeneratedIsUsable(m, q, aps0, true);
    SingleStates(m, q, aps0);
    GeneratedFlows(m, q, aps0, true);
    LinearItems(m.g, m.a, 0, 0, Item(0, 0));
    LinearItems(m.g, m.a, 1, 1, Item(0, 1));
    var c, d := Cfg(0, Item(0, 0)), Cfg(1, Item(0, 1));
    assert IsCfg(m.a, c) && IsCfg(m.a, d);
    var j := Transition(m, q, aps0, true, 0, Item(0, 0));
    LeadsLinear(m, q, aps0, true, 0, 0, Terminal(1), j);
    LinearApart(m, j);
    assert ShiftLink(m.g, m.a, c, d);
    StartSeed(m, q, aps0);
    StartRulesWaitForEnd(m.g, q.lam, q.first, m.a, q.f, d);
  }

  lemma StartSeed(m: Machine, q: Sets, aps0: seq<seq<Action>>)
    requires Single(m, q, aps0) && Flows(m.g, q.lam, q.first, m.a, q.f) && IsCfg(m.a, Cfg(0, Item(0, 0)))
    ensures Cfg(0, Item(0, 0)) in q.f && 0 in q.f[Cfg(0, Item(0, 0))]
  {
    hide Usable, ActionTable, FirstSetsOf, ExactFollow, ListMade, ConfigOk, ShiftOk, KeysOk, Done, StateOk, SeededBy,
         ClosureLink, ShiftLink;
    assert Automata.Placed(m.g, m.a, 0);
    assert Item(0, 0) in StartItems(m.g);
    assert Item(0, 0) in ItemSet(m.a.states[0].basis);
    assert Seeded(m.g, q.lam, q.first, m.a, Cfg(0, Item(0, 0)), 0);
  }

  /** The two action lists. */
  lemma SingleLists(m: Machine, q: Sets, aps0: seq<seq<Action>>)
    requires Single(m, q, aps0)
    ensures |m.aps| == 2 && UniqueLive(m.aps[0]) && UniqueLive(m.aps[1])
    ensures forall act :: act in m.aps[0] && Live(act) <==> act == Action(1, Shift, 1) || act == Action(3, Accept, 0)
    ensures forall act :: act in m.aps[1] && Live(act) <==> act == Action(4, Reduce, 0)
  {
    hide Contested, Usable, FirstSetsOf, ExactFollow, Collection, OneRule, IsRaw, UniqueLive, CompressedBy,
         UsesWildcard, Linear;
    SingleIsOneRule();
    GeneratedIsUsable(m, q, aps0, true);
    SingleStates(m, q, aps0);
    LinearList(m, q, aps0, true, 0, 0);
    AcceptIsRaw(m.g, m.a, q.f);
    forall act | act in m.aps[0] && Live(act) ensures act == Action(1, Shift, 1) || act == Action(3, Accept, 0) {
      LinearRaw(m, q, aps0, true, 0, 0, act);
      if act.kind == Shift { LinearOne(m, act.target); }
    }
    KeptAction(m, q, Action(1, Shift, 1));
    KeptAction(m, q, Action(3, Accept, 0));
    SingleSecond(m, q, aps0);
  }

  lemma LinearOne(m: Machine, j: nat)
    requires m.g == SingleGrammar() && |m.a.states| == 2 && Linear(m.g, m.a, 0, 0) && Linear(m.g, m.a, j, 1)
    ensures j == 1
  {
    LinearApart(m, j);
  }

  lemma KeptAction(m: Machine, q: Sets, act: Action)
    requires |m.aps| > 0 && m.g == SingleGrammar() && UniqueLive(m.aps[0])
    requires act in {Action(1, Shift, 1), Action(3, Accept, 0)} && LiveOn(m.aps[0], act.sp).Some?
    requires forall x | x in m.aps[0] && Live(x) :: IsRaw(m.g, m.a, q.f, 0, x)
    requires forall x | x in m.aps[0] && Live(x) :: x == Action(1, Shift, 1) || x == Action(3, Accept, 0)
    ensures act in m.aps[0] && Live(act)
  {
  }

  lemma SingleSecond(m: Machine, q: Sets, aps0: seq<seq<Action>>)
    requires Single(m, q, aps0) && |m.aps| == 2
    ensures UniqueLive(m.aps[1])
    ensures forall act :: act in m.aps[1] && Live(act) <==> act == Action(4, Reduce, 0)
  {
    hide Usable, FirstSetsOf, ExactFollow, Collection, IsRaw, UniqueLive, MostFrequent;
    assert ActionsFor(m.g, m.a, q.f, 1, aps0[1]) && ListMade(m.g, aps0[1], m.aps[1], true);
    forall act ensures IsRaw(m.g, m.a, q.f, 1, act) <==> act == Action(0, Reduce, 0) {
      SingleReduce(m, q, aps0, act);
    }
    NoConflictKeepsAll(m.g, m.a, q.f, 1, aps0[1]);
    assert Action(0, Reduce, 0) in aps0[1];
    var r: nat :| CompressedBy(m.g, aps0[1], m.aps[1], r);
    HasReduceBy(aps0[1], r);
  }

  lemma SingleNumbers(m: Machine, q: Sets, aps0: seq<seq<Action>>)
    requires Single(m, q, aps0)
    ensures m.num == [0, 1]
  {
    hide Lr0, Sane, RowOk, Collection, ActionTable, FirstSetsOf, ExactFollow, ListMade;
    SingleStates(m, q, aps0);
    SizesAgree(m);
  }

  lemma NoEntries(g: Grammar, num: seq<nat>, ap: seq<Action>, isTkn: bool)
    requires forall act | act in ap && Live(act) :: !InTransaction(g, isTkn, act.sp)
    ensures Entries(g, num, ap, isTkn) == []
  {
    var entries := Entries(g, num, ap, isTkn);
    EntriesMembers(g, num, ap, isTkn, 0);
    var x: nat := if entries != [] then entries[0].lookahead else 0;
    EntriesMembers(g, num, ap, isTkn, x);
    assert entries != [] ==> HasLookahead(entries, x);
    assert forall k | 0 <= k < |ap| :: ap[k] in ap;
  }

  /** A row with a single transaction. */
  lemma OneEntry(g: Grammar, num: seq<nat>, ap: seq<Action>, isTkn: bool, act: Action)
    requires act in ap && Live(act) && InTransaction(g, isTkn, act.sp)
    requires forall x | x in ap && Live(x) && InTransaction(g, isTkn, x.sp) :: x == act
    ensures Entries(g, num, ap, isTkn) != []
    ensures forall x: nat :: HasLookahead(Entries(g, num, ap, isTkn), x) <==> x == act.sp
    ensures Slot(act.sp, ComputeAction(num, |g.rules|, act)) in Entries(g, num, ap, isTkn)
  {
    var entries := Entries(g, num, ap, isTkn);
    forall x: nat ensures HasLookahead(entries, x) <==> x == act.sp {
      EntriesMembers(g, num, ap, isTkn, x);
      var k :| 0 <= k < |ap| && ap[k] == act;
    }
    assert HasLookahead(entries, act.sp);
    var j :| 0 <= j < |entries| && entries[j].lookahead == act.sp;
    EntriesAction(g, num, ap, isTkn, j);
    var k :| 0 <= k < |ap| && Live(ap[k]) && InTransaction(g, isTkn, ap[k].sp) &&
      entries[j] == Slot(ap[k].sp, ComputeAction(num, |g.rules|, ap[k]));
    assert ap[k] in ap;
  }

  /** The tables are an emission for the grammar: they and the numbers and lists of any generated
      parser for it meet the contract of the table report. */
  lemma SingleTablesAreEmitted(m: Machine, q: Sets, aps0: seq<seq<Action>>)
    requires Single(m, q, aps0)
    ensures TablesFor(m.g, m.num, m.aps, SingleTables(m.tb.depth))
  {
    hide Generated, UniqueLive, Entries, DefaultOf, HasLookahead, LiveOn;
    SingleLists(m, q, aps0);
    SingleNumbers(m, q, aps0);
    var g, num, tb := m.g, m.num, SingleTables(m.tb.depth);
    var shift, accept := Action(1, Shift, 1), Action(3, Accept, 0);
    OneEntry(g, num, m.aps[0], true, shift);
    OneEntry(g, num, m.aps[0], false, accept);
    NoEntries(g, num, m.aps[1], true);
    NoEntries(g, num, m.aps[1], false);
    SingleDefaults(m, q, aps0);
  }

  lemma SingleDefaults(m: Machine, q: Sets, aps0: seq<seq<Action>>)
    requires Single(m, q, aps0) && |m.aps| == 2 && m.num == [0, 1]
    ensures DefaultOf(m.g, m.num, m.aps[0]) == 3 && DefaultOf(m.g, m.num, m.aps[1]) == 2
  {
    hide Generated, UniqueLive, DefaultOf;
    SingleLists(m, q, aps0);
    DefaultIsEffect(m.g, m.num, m.aps[0]);
    DefaultIsEffect(m.g, m.num, m.aps[1]);
    LiveOnUnique(m.aps[1], Action(4, Reduce, 0));
  }

  /** What the literal tables do with A A. */
  lemma SingleRun(depth: nat)
    requires depth >= 2
    ensures TablesUsable(SingleTables(depth))
    ensures var tb := SingleTables(depth);
      Session(tb, Idle(tb), [1, 1], 2) == Config([], -2, 1, false, false, [Shifted(1), Reduced(0), Accepted])
  {
    hide Session;
    var tb := SingleTables(depth);
    var c0 := Begin(Idle(tb), 1);
    var c1 := Step(tb, c0);
    assert c1 == Config([Entry(0, 0), Entry(1, 1)], -2, tb.NoCode(), false, false, [Shifted(1)]);
    assert Run(tb, c0, 2) == Run(tb, c1, 1) == c1;
    var d0 := Begin(c1, 1);
    var d1 := Step(tb, d0);
    assert d0.stack[..1] == [Entry(0, 0)];
    assert d1 == Config([], -2, 1, false, false, [Shifted(1), Reduced(0), Accepted]);
    assert Run(tb, d0, 2) == Run(tb, d1, 1) == d1;
    SessionSnoc(tb, Idle(tb), [], 1, 2);
    SessionSnoc(tb, Idle(tb), [1], 1, 2);
    SessionOfNothing(tb, 2);
    assert [] + [1] == [1] && [1] + [1] == [1, 1];
  }

  /** Fed with A A, every compressed parser for the grammar accepts in the call with the second A,
      which it never uses, however its tables are packed. */
  lemma EarlyAccept(m: Machine, q: Sets, aps0: seq<seq<Action>>)
    requires Single(m, q, aps0) && m.tb.depth >= 2
    ensures TablesUsable(m.tb)
    ensures var c := Session(m.tb, Idle(m.tb), [1, 1], 2);
      c.stack == [] && c.major == 1 && c.log == [Shifted(1), Reduced(0), Accepted]
  {
    hide Usable, Generated, TablesFor, Session;
    GeneratedIsUsable(m, q, aps0, true);
    SingleTablesAreEmitted(m, q, aps0);
    var p := m.(tb := SingleTables(m.tb.depth));
    SameButTables(m, p);
    IdleIsSafe(p);
    SingleRun(m.tb.depth);
    SessionCommutes(p, m, Idle(p.tb), [1, 1], 2);
    SameFallback(p, m);
    assert RenameStack(p, m, []) == [];
  }

  lemma SameButTables(m: Machine, p: Machine)
    requires Usable(m) && p == m.(tb := p.tb) && p.tb.depth == m.tb.depth && TablesFor(m.g, m.num, m.aps, p.tb)
    ensures Twins(p, m)
  {
    hide Lr0, Sane, RowOk;
  }
}
