/** A token of which no rule speaks: every parser generated for the grammar takes it for the wildcard. */
module Wildcards {
  import opened Grammars
  import opened FirstSets
  import opened Automata
  import opened Actions
  import opened Compression
  import opened Driver
  import opened Machines
  import opened StackInvariants
  import opened Steps
  import opened Soundness
  import opened OneCall
  import opened Completeness
  import opened Lookaheads
  import opened Products
  import opened Instances

  /** %wildcard W.  s ::= W T.  W, T and FOO are terminals 1 to 3; error and s are nonterminals 4 and 5. */
  function AnyGrammar(): Grammar {
    Grammar(4, 6, [Rule(5, [Terminal(1), Terminal(2)], None)], 5, 4,
            [-1, -1, -1, -1], [UnknownAssoc, UnknownAssoc, UnknownAssoc, UnknownAssoc], [0, 0, 0, 0], Some(1))
  }

  lemma AnyIsWf()
    ensures WfGrammar(AnyGrammar())
  {
    var g := AnyGrammar();
    assert g.rules[0].lhs == g.start;
    assert forall r | 0 <= r < |g.rules| :: WfRule(g, g.rules[r]);
  }

  ghost predicate Any(m: Machine, q: Sets, aps0: seq<seq<Action>>, compress: bool) {
    Generated(m, q, aps0, compress) && m.g == AnyGrammar()
  }

  lemma AnyKernels()
    ensures var g := AnyGrammar();
      && StartItems(g) == {Item(0, 0)} && GotoSet(g, {Item(0, 0)}, Terminal(1)) == {Item(0, 1)}
      && IsClosure(g, {Item(0, 0)}, {Item(0, 0)}) && IsClosure(g, {Item(0, 1)}, {Item(0, 1)})
  {
    var g := AnyGrammar();
    assert Advance(Item(0, 0)) in GotoSet(g, {Item(0, 0)}, Terminal(1));
  }

  /** In state 0 the wildcard has its shift, and no other terminal has an action. */
  lemma AnyShift(m: Machine, q: Sets, aps0: seq<seq<Action>>, compress: bool) returns (j: nat)
    requires Any(m, q, aps0, compress)
    ensures HasItems(m.a, 0, {Item(0, 0)}) && Leads(m.g, m.a, 0, Terminal(1), j)
    ensures IsRaw(m.g, m.a, q.f, 0, Action(1, Shift, j))
  {
    hide Usable, Generated, IsRaw, IsClosure, GotoSet, Leads, HasItems;
    AnyKernels();
    StartIs(m, q, aps0, compress, {Item(0, 0)});
    j := GotoItems(m, q, aps0, compress, 0, Item(0, 0), {Item(0, 0)}, {Item(0, 1)});
  }

  lemma AnyActions(m: Machine, q: Sets, aps0: seq<seq<Action>>, compress: bool, j: nat, act: Action)
    requires Any(m, q, aps0, compress) && HasItems(m.a, 0, {Item(0, 0)}) && Leads(m.g, m.a, 0, Terminal(1), j)
    requires IsRaw(m.g, m.a, q.f, 0, act)
    ensures act == Action(1, Shift, j) || act == Action(5, Accept, 0)
  {
    hide Usable, Generated, IsRaw, Leads;
    GeneratedIsUsable(m, q, aps0, compress);
    ItemsOf(m.a, 0, {Item(0, 0)});
    RawCases(m, q, aps0, compress, 0, act);
    if act.kind == Shift {
      LeadsUnique(m.g, q.lam, q.first, m.a, 0, Terminal(1), act.target, j);
    }
  }

  /** The list of state 0, compressed or not. */
  lemma AnyList(m: Machine, q: Sets, aps0: seq<seq<Action>>, compress: bool, j: nat)
    requires Any(m, q, aps0, compress) && HasItems(m.a, 0, {Item(0, 0)}) && Leads(m.g, m.a, 0, Terminal(1), j)
    requires IsRaw(m.g, m.a, q.f, 0, Action(1, Shift, j))
    ensures |m.aps| > 0 && Action(1, Shift, j) in m.aps[0]
    ensures forall act | act in m.aps[0] && Live(act) :: act == Action(1, Shift, j) || act == Action(5, Accept, 0)
  {
    hide Usable, FirstSetsOf, ExactFollow, Collection, Leads, HasItems, IsRaw, ListMade, Contested;
    GeneratedIsUsable(m, q, aps0, compress);
    forall act | IsRaw(m.g, m.a, q.f, 0, act) ensures act == Action(1, Shift, j) || act == Action(5, Accept, 0) {
      AnyActions(m, q, aps0, compress, j, act);
    }
    NoReduceKeepsList(m, q, aps0, compress, 0);
    assert ActionsFor(m.g, m.a, q.f, 0, aps0[0]);
    assert SomeLive(aps0[0], Action(1, Shift, j).sp);
  }

  lemma AnyDecision(m: Machine, j: nat)
    requires Usable(m) && m.g == AnyGrammar() && |m.aps| > 0 && UniqueLive(m.aps[0]) && Action(1, Shift, j) in m.aps[0]
    requires forall act | act in m.aps[0] && Live(act) :: act == Action(1, Shift, j) || act == Action(5, Accept, 0)
    ensures ShiftDecision(m, 0, 3) == Effect(Shift, j)
  {
    hide Usable, UniqueLive;
    MachineTables(m);
    StateNumber(m, 0);
    LevelState(m, 0);
    LiveOnUnique(m.aps[0], Action(1, Shift, j));
  }

  /** Fed with FOO every parser for the grammar shifts it at once, to the state behind W. */
  lemma ForeignTokenShifted(m: Machine, q: Sets, aps0: seq<seq<Action>>, compress: bool, limit: nat) returns (j: nat)
    requires Any(m, q, aps0, compress) && m.tb.depth >= 2 && limit >= 1
    ensures TablesUsable(m.tb) && Leads(m.g, m.a, 0, Terminal(1), j) && j < |m.num|
    ensures var c := Session(m.tb, Idle(m.tb), [3], limit);
      c.stack == [Entry(0, 0), Entry(m.num[j], 3)] && c.log == [Shifted(3)]
  {
    hide Usable, Generated, Leads, HasItems, IsRaw, Step, ErrorStep, ReduceStep, StackOf, Moves, ReadAs, ShiftDecision,
         Session, UniqueLive;
    GeneratedIsUsable(m, q, aps0, compress);
    MachineUsable(m);
    j := AnyShift(m, q, aps0, compress);
    AnyList(m, q, aps0, compress, j);
    StateNumber(m, 0);
    LevelState(m, 0);
    LeadsTo(m.a, m.g, 0, Terminal(1), j);
    AnyDecision(m, j);
    var tb, b := m.tb, Begin(Idle(m.tb), 3);
    StartStack(m);
    assert b.stack == [Entry(0, 0)];
    StepShape(m, b, []);
    RunOne(tb, b, limit);
    RunStopped(tb, Step(tb, b), limit - 1);
    SessionSnoc(tb, Idle(tb), [], 3, limit);
    SessionOfNothing(tb, limit);
    assert [] + [3] == [3];
  }
}
