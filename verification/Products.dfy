/** What the generator hands over, as one hypothesis for statements about generated parsers. */
module Products {
  import opened Grammars
  import opened FirstSets
  import opened FirstMeaning
  import opened Automata
  import opened Canonical
  import opened FollowSets
  import opened Actions
  import opened Compression
  import opened Driver
  import opened Machines
  import opened StackInvariants
  import opened Steps
  import opened Completeness
  import opened Lookaheads

  /** `m` is a parser that the generator makes for its grammar: `q` are the lambda flags, first
      sets and follow sets, and `aps0` the action lists after the resolution of conflicts. */
  ghost predicate Generated(m: Machine, q: Sets, aps0: seq<seq<Action>>, compress: bool) {
    && Usable(m)
    && FirstSetsOf(m.g, q.lam, q.first) && Collection(m.g, q.lam, q.first, m.a)
    && ExactFollow(m.g, q.lam, m.a, q.f)
    && ActionTable(m.g, m.a, q.f, aps0)
    && |m.aps| == |aps0|
    && forall i | 0 <= i < |aps0| :: ListMade(m.g, aps0[i], m.aps[i], compress)
  }

  ghost predicate ListMade(g: Grammar, ap0: seq<Action>, ap: seq<Action>, compress: bool) {
    if compress then Compressed(g, ap0, ap) else ap == ap0
  }

  lemma GeneratedIsUsable(m: Machine, q: Sets, aps0: seq<seq<Action>>, compress: bool)
    requires Generated(m, q, aps0, compress)
    ensures Usable(m) && TablesUsable(m.tb) && WfGrammar(m.g) && Partial(m.g, q.lam, q.first, m.a)
    ensures |m.aps| == |m.a.states| == |aps0| == |m.num| == m.tb.nstate && |m.a.states| > 0
  {
    hide Collection, Partial, ExactFollow, FirstSetsOf, ListMade, ActionsFor;
    MachineUsable(m);
    MachineIsWf(m);
    SizesAgree(m);
    CollectionIsPartial(m.g, q.lam, q.first, m.a);
  }

  lemma GeneratedFlows(m: Machine, q: Sets, aps0: seq<seq<Action>>, compress: bool)
    requires Generated(m, q, aps0, compress)
    ensures Flows(m.g, q.lam, q.first, m.a, q.f)
  {
    hide Usable, Collection, ActionTable, FirstSetsOf, ListMade, ExactLinks, LeastFollow;
    var fplp :| ExactLinks(m.g, q.lam, m.a, fplp) && LeastFollow(m.a, fplp, q.f);
    LeastFollowFlows(m.g, q.lam, q.first, m.a, fplp, q.f);
  }

  /** A generated parser without conflicts and substitutes is complete, if every nonterminal that
      derives the empty string has an empty rule. */
  lemma GeneratedIsSetting(m: Machine, q: Sets, aps0: seq<seq<Action>>, compress: bool)
    requires Generated(m, q, aps0, compress)
    requires NoSubstitutes(m.g) && EmptyRuleClosed(m.g) && ConflictFree(m.g, m.a, q.f)
    ensures Setting(m, q)
  {
    hide Usable, Collection, ActionTable, FirstSetsOf, ExactFollow, Compressed, Flows, Faithful, ConflictFree,
         NoSubstitutes, EmptyRuleClosed;
    GeneratedFlows(m, q, aps0, compress);
    MachineIsWf(m);
    ConflictFreeIsFaithful(m, q.lam, q.first, q.f, aps0);
  }

  // ----- One state -----

  /** A kernel that is closed has no other items. */
  lemma ClosedKernel(g: Grammar, st: State)
    requires StateOk(g, st) && Closed(g, ItemSet(st.basis))
    ensures ItemSet(st.items) == ItemSet(st.basis)
  {
  }

  lemma GotoState(m: Machine, q: Sets, aps0: seq<seq<Action>>, compress: bool, i: nat, x: Symbol, j: nat)
    requires Generated(m, q, aps0, compress) && Leads(m.g, m.a, i, x, j)
    requires Closed(m.g, GotoSet(m.g, ItemSet(m.a.states[i].items), x))
    ensures ItemSet(m.a.states[j].items) == GotoSet(m.g, ItemSet(m.a.states[i].items), x)
  {
    hide Usable, ActionTable, FirstSetsOf, ExactFollow, ListMade, Placed, ConfigOk, ShiftOk, KeysOk, Done, GotoSet,
         IsClosure;
    assert StateOk(m.g, m.a.states[j]);
    ClosedKernel(m.g, m.a.states[j]);
  }

  /** State 0 has the items `c` when they are the closure of the start items. */
  lemma StartStateItems(m: Machine, q: Sets, aps0: seq<seq<Action>>, compress: bool, c: set<Item>)
    requires Generated(m, q, aps0, compress) && IsClosure(m.g, StartItems(m.g), c)
    ensures |m.a.states| > 0 && ItemSet(m.a.states[0].items) == c
  {
    hide Usable, ActionTable, FirstSetsOf, ExactFollow, ListMade, ConfigOk, ShiftOk, KeysOk, Done, IsClosure;
    assert StateOk(m.g, m.a.states[0]) && Placed(m.g, m.a, 0);
    ClosureUnique(m.g, StartItems(m.g), c, ItemSet(m.a.states[0].items));
  }

  lemma Transition(m: Machine, q: Sets, aps0: seq<seq<Action>>, compress: bool, i: nat, it: Item) returns (j: nat)
    requires Generated(m, q, aps0, compress) && i < |m.a.states| && it in m.a.states[i].items && Next(m.g, it).Some?
    ensures Leads(m.g, m.a, i, Next(m.g, it).value, j)
    ensures forall s: nat | Spells(Next(m.g, it).value, s) :: IsRaw(m.g, m.a, q.f, i, Action(s, Shift, j))
  {
    hide Usable, ActionTable, FirstSetsOf, ExactFollow, ListMade, Partial;
    assert Done(m.g, m.a, i);
    assert DoneSymbol(m.g, m.a, i, Next(m.g, it).value);
    j :| DoneVia(m.g, m.a, i, Next(m.g, it).value, j);
  }

  /** Where an action of a state comes from. */
  lemma RawCases(m: Machine, q: Sets, aps0: seq<seq<Action>>, compress: bool, i: nat, act: Action)
    requires Generated(m, q, aps0, compress) && i < |m.a.states| && IsRaw(m.g, m.a, q.f, i, act)
    ensures match act.kind
      case Shift => exists it :: it in m.a.states[i].items && Next(m.g, it).Some? &&
                                 Spells(Next(m.g, it).value, act.sp) &&
                                 Leads(m.g, m.a, i, Next(m.g, it).value, act.target)
      case Reduce => IsReduce(m.g, m.a, q.f, i, act)
      case _ => i == 0 && act == Action(m.g.start, Accept, 0)
  {
    hide Usable, ActionTable, FirstSetsOf, ExactFollow, ListMade, StateOk, Placed, ConfigOk, KeysOk, Done;
    if act in m.a.states[i].ap {
      assert ShiftOk(m.g, m.a, i, act);
      var x :| Spells(x, act.sp) && Leads(m.g, m.a, i, x, act.target);
      var it :| it in m.a.states[i].items && Next(m.g, it) == Some(x);
    }
  }

  /** A state without reduces keeps its list. */
  lemma NoReduceKeepsList(m: Machine, q: Sets, aps0: seq<seq<Action>>, compress: bool, i: nat)
    requires Generated(m, q, aps0, compress) && i < |aps0|
    requires forall act | IsRaw(m.g, m.a, q.f, i, act) :: act.kind != Reduce
    ensures m.aps[i] == aps0[i]
  {
    hide Usable, Collection, FirstSetsOf, ExactFollow, IsRaw, CompressedBy, UsesWildcard;
    assert ActionsFor(m.g, m.a, q.f, i, aps0[i]);
    assert ListMade(m.g, aps0[i], m.aps[i], compress);
  }
}
