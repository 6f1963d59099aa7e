/** The automaton, the action lists and the tables of one generated parser together: what the
    action lists have to satisfy for the parser to be safe, and what lies on its stack. */
module Machines {
  import opened Grammars
  import opened FirstSets
  import opened Automata
  import opened FollowSets
  import opened Actions
  import opened Compression
  import opened ParserTables
  import opened Report
  import opened Emit
  import opened Lookups
  import opened Driver

  ghost predicate Goes(g: Grammar, a: Automaton, i: nat, s: nat, j: nat) {
    exists x :: Spells(x, s) && Leads(g, a, i, x, j)
  }

  ghost predicate ActionSane(g: Grammar, a: Automaton, i: nat, act: Action)
    requires i < |a.states|
  {
    match act.kind
    case Shift => act.sp < g.nsymbol && Goes(g, a, i, act.sp, act.target)
    case Accept => i == 0 && act.sp == g.start
    case Reduce => (act.sp < g.nterminal || act.sp == g.nsymbol) && act.target < |g.rules| &&
                   Item(act.target, |g.rules[act.target].rhs|) in a.states[i].items
    case _ => false
  }

  ghost predicate HasGoto(ap: seq<Action>, s: nat) {
    LiveOn(ap, s).Some? && LiveOn(ap, s).value.kind == Shift
  }

  /** Every live action is one the automaton justifies, no symbol has two, no goto is missing,
      and the start state accepts on the start symbol. */
  ghost predicate ListSane(g: Grammar, a: Automaton, i: nat, ap: seq<Action>)
    requires i < |a.states|
  {
    && UniqueLive(ap)
    && (forall act | act in ap && Live(act) :: ActionSane(g, a, i, act))
    && (forall it, s: nat | it in a.states[i].items && Next(g, it) == Some(Nonterminal(s)) :: HasGoto(ap, s))
    && (i == 0 ==> LiveOn(ap, g.start).Some? && LiveOn(ap, g.start).value.kind == Accept)
  }

  ghost predicate Sane(g: Grammar, a: Automaton, aps: seq<seq<Action>>) {
    |aps| == |a.states| && forall i | 0 <= i < |aps| :: ListSane(g, a, i, aps[i])
  }

  // ----- The lists of FindActions and CompressTables are sane -----

  lemma ShiftIsSane(g: Grammar, lam: set<nat>, first: First, a: Automaton, i: nat, act: Action)
    requires WfGrammar(g) && Partial(g, lam, first, a) && i < |a.states| && act in a.states[i].ap
    ensures act.kind == Shift && act.sp < g.nsymbol && act.sp > 0 && Goes(g, a, i, act.sp, act.target)
  {
    hide StateOk, Automata.Placed, ConfigOk, KeysOk;
    assert ShiftOk(g, a, i, act);
    var x :| Spells(x, act.sp) && Leads(g, a, i, x, act.target);
    var it :| it in a.states[i].items && Next(g, it) == Some(x);
    assert WfRule(g, g.rules[it.rule]) && WfSymbol(g, x);
  }

  lemma RawIsSane(g: Grammar, lam: set<nat>, first: First, a: Automaton, f: Follow, i: nat, act: Action)
    requires WfGrammar(g) && Partial(g, lam, first, a) && i < |a.states| && IsRaw(g, a, f, i, act)
    ensures ActionSane(g, a, i, act)
  {
    hide Partial;
    if act in a.states[i].ap {
      ShiftIsSane(g, lam, first, a, i, act);
    }
  }

  lemma AcceptIsRaw(g: Grammar, a: Automaton, f: Follow)
    requires |a.states| > 0
    ensures IsRaw(g, a, f, 0, Action(g.start, Accept, 0))
  {
  }

  /** Every item whose next symbol is a nonterminal gives its state a shift on it. */
  lemma GotoIsRaw(g: Grammar, lam: set<nat>, first: First, a: Automaton, f: Follow, i: nat, it: Item, x: Symbol,
        s: nat) returns (j: nat)
    requires Collection(g, lam, first, a) && i < |a.states| && it in a.states[i].items && Next(g, it) == Some(x)
    requires Spells(x, s)
    ensures Leads(g, a, i, x, j) && IsRaw(g, a, f, i, Action(s, Shift, j))
  {
    hide Partial;
    assert Done(g, a, i);
    assert DoneSymbol(g, a, i, x);
    j :| DoneVia(g, a, i, x, j);
    assert Action(s, Shift, j) in a.states[i].ap;
  }

  lemma RawOnNonterminal(g: Grammar, lam: set<nat>, first: First, a: Automaton, f: Follow, i: nat, act: Action)
    requires WfGrammar(g) && Partial(g, lam, first, a) && IsRaw(g, a, f, i, act) && act.sp >= g.nterminal
    ensures act.kind == (if act.sp == g.start then Accept else Shift)
  {
    RawIsLive(g, lam, first, a, f, i, act);
  }

  lemma NextIsNotStart(g: Grammar, it: Item)
    requires WfGrammar(g) && Next(g, it).Some?
    ensures Next(g, it).value != Nonterminal(g.start) && WfSymbol(g, Next(g, it).value)
  {
    assert WfRule(g, g.rules[it.rule]);
  }

  lemma ActionsForIsSane(g: Grammar, lam: set<nat>, first: First, a: Automaton, f: Follow, i: nat, ap: seq<Action>)
    requires WfGrammar(g) && Collection(g, lam, first, a) && i < |a.states| && ActionsFor(g, a, f, i, ap)
    ensures ListSane(g, a, i, ap)
  {
    hide Partial, Collection, IsRaw, ActionSane;
    CollectionIsPartial(g, lam, first, a);
    forall act | act in ap && Live(act) ensures ActionSane(g, a, i, act) {
      RawIsSane(g, lam, first, a, f, i, act);
    }
    forall it, s: nat | it in a.states[i].items && Next(g, it) == Some(Nonterminal(s)) ensures HasGoto(ap, s) {
      var j := GotoIsRaw(g, lam, first, a, f, i, it, Nonterminal(s), s);
      assert SomeLive(ap, Action(s, Shift, j).sp);
      NextIsNotStart(g, it);
      RawOnNonterminal(g, lam, first, a, f, i, LiveOn(ap, s).value);
    }
    if i == 0 {
      AcceptIsRaw(g, a, f);
      assert SomeLive(ap, Action(g.start, Accept, 0).sp);
      RawOnNonterminal(g, lam, first, a, f, i, LiveOn(ap, g.start).value);
    }
  }

  lemma CompressedByIsSane(g: Grammar, a: Automaton, i: nat, ap0: seq<Action>, ap: seq<Action>, r: nat)
    requires g.nterminal <= g.start && i < |a.states|
    requires forall it | it in a.states[i].items && Next(g, it).Some? :: WfSymbol(g, Next(g, it).value)
    requires ListSane(g, a, i, ap0) && CompressedBy(g, ap0, ap, r)
    requires forall act | act in ap0 :: act.kind == Reduce ==> Live(act)
    ensures ListSane(g, a, i, ap)
  {
    hide MostFrequent, UsesWildcard, Goes;
    HasReduceBy(ap0, r);
    forall it, s: nat | it in a.states[i].items && Next(g, it) == Some(Nonterminal(s)) ensures HasGoto(ap, s) {
      LiveOnUnique(ap, LiveOn(ap0, s).value);
    }
    if i == 0 {
      LiveOnUnique(ap, LiveOn(ap0, g.start).value);
    }
  }

  lemma HasReduceBy(ap: seq<Action>, r: nat)
    requires MostFrequent(ap, r)
    ensures exists act :: act in ap && Live(act) && IsReduceBy(act, r)
  {
    var k: nat :| k in ReducesAt(ap, r);
    assert ap[k] in ap;
  }

  lemma NextsAreWf(g: Grammar, a: Automaton, i: nat)
    requires WfGrammar(g) && i < |a.states|
    ensures forall it | it in a.states[i].items && Next(g, it).Some? :: WfSymbol(g, Next(g, it).value)
  {
    forall it | it in a.states[i].items && Next(g, it).Some? ensures WfSymbol(g, Next(g, it).value) {
      NextIsNotStart(g, it);
    }
  }

  lemma CompressedIsSane(g: Grammar, a: Automaton, i: nat, ap0: seq<Action>, ap: seq<Action>)
    requires WfGrammar(g) && i < |a.states| && ListSane(g, a, i, ap0) && Compressed(g, ap0, ap)
    ensures ListSane(g, a, i, ap)
  {
    hide ListSane, CompressedBy, UsesWildcard;
    if ap != ap0 {
      var r: nat :| CompressedBy(g, ap0, ap, r);
      NextsAreWf(g, a, i);
      CompressedByIsSane(g, a, i, ap0, ap, r);
    }
  }

  /** What FindActions leaves behind is sane, and so is what compression makes of it. */
  lemma TableIsSane(g: Grammar, lam: set<nat>, first: First, a: Automaton, f: Follow, aps0: seq<seq<Action>>,
        aps: seq<seq<Action>>)
    requires WfGrammar(g) && Collection(g, lam, first, a) && ActionTable(g, a, f, aps0)
    requires |aps| == |aps0| && forall i | 0 <= i < |aps| :: Compressed(g, aps0[i], aps[i])
    ensures Sane(g, a, aps0) && Sane(g, a, aps)
  {
    hide Collection, ActionsFor, Compressed, ListSane;
    forall i | 0 <= i < |aps| ensures ListSane(g, a, i, aps0[i]) && ListSane(g, a, i, aps[i]) {
      ActionsForIsSane(g, lam, first, a, f, i, aps0[i]);
      CompressedIsSane(g, a, i, aps0[i], aps[i]);
    }
  }

  // ----- A machine -----

  datatype Machine = Machine(g: Grammar, a: Automaton, aps: seq<seq<Action>>, num: seq<nat>, sorted: seq<nat>,
                             tb: Tables)

  /** The states of the automaton are closures, and state 0 is the start state. */
  ghost predicate Lr0(g: Grammar, a: Automaton) {
    && |a.states| > 0 && ItemSet(a.states[0].basis) == StartItems(g)
    && forall i | 0 <= i < |a.states| :: StateOk(g, a.states[i])
  }

  /** A parser for the grammar with the automaton, however its states are numbered.  A rule
      with 256 symbols or more would lose its length in the table. */
  ghost predicate Usable(m: Machine) {
    && WfGrammar(m.g) && FallbackAcyclic(m.g) && ShortRules(m.g)
    && Lr0(m.g, m.a) && Sane(m.g, m.a, m.aps)
    && Numbering(|m.aps|, m.num, m.sorted)
    && TablesFor(m.g, m.num, m.aps, m.tb) && m.tb.depth > 0
  }

  ghost predicate ShortRules(g: Grammar) {
    forall r | 0 <= r < |g.rules| :: |g.rules[r].rhs| < 256
  }

  lemma PartialIsLr0(g: Grammar, lam: set<nat>, first: First, a: Automaton)
    requires Collection(g, lam, first, a)
    ensures Lr0(g, a)
  {
    hide StateOk;
    assert Automata.Placed(g, a, 0);
  }

  /** The state of the automaton that the parser knows by number `s`. */
  ghost function StateId(m: Machine, s: nat): nat {
    if s < |m.sorted| then m.sorted[s] else 0
  }

  ghost function ListOf(m: Machine, s: nat): seq<Action> {
    if StateId(m, s) < |m.aps| then m.aps[StateId(m, s)] else []
  }

  /** The parser moves from the state numbered `s` over symbol `x` to the one numbered `s2`. */
  ghost predicate Moves(m: Machine, s: nat, x: nat, s2: nat) {
    && s < m.tb.nstate && s2 < m.tb.nstate && x < m.g.nsymbol
    && Goes(m.g, m.a, StateId(m, s), x, StateId(m, s2))
  }

  // ----- What the lookups find -----

  lemma MachineTables(m: Machine)
    requires Usable(m)
    ensures TablesUsable(m.tb) && SymbolsOk(m.g) && |m.aps| == m.tb.nstate == |m.num| == |m.sorted|
    ensures m.tb.nsymbol == m.g.nsymbol && m.tb.nrule == |m.g.rules| && m.tb.nstate > 0
    ensures m.tb.errsym == m.g.errsym
    ensures forall t: nat :: ChainEnds(m.tb.fallback, t, |m.tb.fallback|) && ChainEnds(m.g.fallback, t, |m.tb.fallback|)
  {
    hide StateOk, ListSane, RowOk;
    forall t: nat ensures ChainEnds(m.tb.fallback, t, |m.tb.fallback|) && ChainEnds(m.g.fallback, t, |m.tb.fallback|) {
      if m.tb.fallback == m.g.fallback {
        assert t < m.g.nterminal ==> ChainEnds(m.g.fallback, t, m.g.nterminal);
      }
    }
  }

  lemma StateNumber(m: Machine, s: nat)
    requires Usable(m) && s < m.tb.nstate
    ensures StateId(m, s) < |m.aps| == |m.a.states| && m.num[StateId(m, s)] == s && ListOf(m, s) == m.aps[StateId(m, s)]
    ensures ListSane(m.g, m.a, StateId(m, s), ListOf(m, s)) && ListOk(m.g, ListOf(m, s))
    ensures StateOk(m.g, m.a.states[StateId(m, s)])
  {
    hide Leads, StateOk, RowOk, UniqueLive, Goes, FallbackAcyclic, ShortRules, HasGoto;
    var i := StateId(m, s);
    assert ListSane(m.g, m.a, i, m.aps[i]);
    forall act | act in m.aps[i] && Live(act) ensures act.sp <= m.g.nsymbol {
      assert ActionSane(m.g, m.a, i, act);
    }
  }

  lemma NumberOfState(m: Machine, i: nat)
    requires Usable(m) && i < |m.a.states|
    ensures m.num[i] < m.tb.nstate && StateId(m, m.num[i]) == i
  {
    hide Lr0, RowOk, FallbackAcyclic, ShortRules, ListSane;
  }

  /** The parser may treat token `t` as `s`: the same token, one it falls back to, or the
      wildcard. */
  ghost predicate ReadAsIn(g: Grammar, t: nat, s: nat, n: nat)
    decreases n
  {
    || s == t
    || (t > 0 && g.wildcard == Some(s))
    || (n > 0 && HasFallback(g, t) && ReadAsIn(g, g.fallback[t], s, n - 1))
  }

  ghost predicate ReadAs(g: Grammar, t: nat, s: nat) {
    exists n: nat :: ReadAsIn(g, t, s, n)
  }

  ghost predicate NoSubstitutes(g: Grammar) {
    g.wildcard.None? && forall t | 0 <= t < |g.fallback| :: g.fallback[t] == 0
  }

  lemma ReadAsSelf(g: Grammar, t: nat, s: nat)
    requires NoSubstitutes(g) && ReadAs(g, t, s)
    ensures s == t
  {
    var n: nat :| ReadAsIn(g, t, s, n);
  }

  /** What a decision on token `t` in state `i` can be. */
  ghost predicate Justified(g: Grammar, a: Automaton, i: nat, t: nat, e: Effect)
    requires i < |a.states|
  {
    match e.kind
    case Shift => t > 0 && exists s: nat :: ReadAs(g, t, s) && 0 < s < g.nterminal && Goes(g, a, i, s, e.target)
    case Reduce => e.target < |g.rules| && Item(e.target, |g.rules[e.target].rhs|) in a.states[i].items
    case ErrorAction => e == ERROR_EFFECT
    case _ => false
  }

  lemma GoesPositive(g: Grammar, a: Automaton, i: nat, s: nat, j: nat)
    requires WfGrammar(g) && Goes(g, a, i, s, j)
    ensures 0 < s < g.nsymbol && j < |a.states|
  {
    var x :| Spells(x, s) && Leads(g, a, i, x, j);
    var it :| it in a.states[i].items && Next(g, it) == Some(x);
    NextIsNotStart(g, it);
  }

  lemma ReadAsStep(g: Grammar, t: nat, s: nat)
    requires HasFallback(g, t) && ReadAs(g, g.fallback[t], s)
    ensures ReadAs(g, t, s)
  {
    var n: nat :| ReadAsIn(g, g.fallback[t], s, n);
    assert ReadAsIn(g, t, s, n + 1);
  }

  lemma ReadDirectly(g: Grammar, t: nat, s: nat)
    requires s == t || (t > 0 && g.wildcard == Some(s))
    ensures ReadAs(g, t, s)
  {
    assert ReadAsIn(g, t, s, 0);
  }

  lemma ActionJustified(g: Grammar, a: Automaton, i: nat, t: nat, act: Action)
    requires WfGrammar(g) && i < |a.states| && ActionSane(g, a, i, act)
    requires act.sp < g.nterminal && (act.sp == t || (t > 0 && g.wildcard == Some(act.sp)))
    ensures Justified(g, a, i, t, EffectOf(act))
  {
    hide Goes;
    if act.kind == Shift {
      GoesPositive(g, a, i, act.sp, act.target);
      ReadDirectly(g, t, act.sp);
    }
  }

  lemma {:induction false} DecideJustified(g: Grammar, a: Automaton, i: nat, ap: seq<Action>, t: nat, n: nat)
    requires WfGrammar(g) && i < |a.states| && ListSane(g, a, i, ap)
    requires t < g.nterminal && ChainEnds(g.fallback, t, n)
    ensures Justified(g, a, i, t, Decide(g, ap, t, n))
    decreases n
  {
    hide ActionSane, UniqueLive, Goes, ReadAs;
    var own := LiveOn(ap, t);
    if own.Some? {
      ActionJustified(g, a, i, t, own.value);
    } else if HasFallback(g, t) {
      DecideJustified(g, a, i, ap, g.fallback[t], n - 1);
      var e := Decide(g, ap, g.fallback[t], n - 1);
      if e.kind == Shift {
        var s: nat :| ReadAs(g, g.fallback[t], s) && 0 < s < g.nterminal && Goes(g, a, i, s, e.target);
        ReadAsStep(g, t, s);
      }
    } else {
      var w := WildcardAction(g, ap, t);
      if w.Some? {
        ActionJustified(g, a, i, t, w.value);
      } else {
        DefaultJustified(g, a, i, ap, t);
      }
    }
  }

  lemma DefaultJustified(g: Grammar, a: Automaton, i: nat, ap: seq<Action>, t: nat)
    requires i < |a.states| && ListSane(g, a, i, ap) && g.start < g.nsymbol
    ensures DefaultEffect(g, ap).kind in {Reduce, ErrorAction}
    ensures Justified(g, a, i, t, DefaultEffect(g, ap))
  {
    var d := LiveOn(ap, g.nsymbol);
    if d.Some? {
      assert ActionSane(g, a, i, d.value);
    }
  }

  ghost function ShiftDecision(m: Machine, s: nat, t: nat): Effect
    requires Usable(m)
  {
    MachineTables(m);
    Decide(m.g, ListOf(m, s), t, |m.tb.fallback|)
  }

  /** The lookup for a pending token returns the code of a justified decision. */
  lemma ShiftLookupMeans(m: Machine, s: nat, t: nat)
    requires Usable(m) && s < m.tb.nstate && t < m.g.nterminal
    ensures WfTables(m.tb) && ChainEnds(m.tb.fallback, t, |m.tb.fallback|) && StateId(m, s) < |m.a.states|
    ensures FindShiftAction(m.tb, s, t, |m.tb.fallback|) == EffectCode(m.num, m.tb.nrule, ShiftDecision(m, s, t))
    ensures Justified(m.g, m.a, StateId(m, s), t, ShiftDecision(m, s, t))
  {
    hide Lr0, StateOk, ListSane, Sane, TablesFor, FallbackAcyclic, ShortRules;
    MachineTables(m);
    StateNumber(m, s);
    MachineLists(m);
    ShiftLookup(m.g, m.num, m.aps, m.tb, StateId(m, s), t, |m.tb.fallback|);
    DecideJustified(m.g, m.a, StateId(m, s), ListOf(m, s), t, |m.tb.fallback|);
  }

  lemma MachineLists(m: Machine)
    requires Usable(m)
    ensures TablesFor(m.g, m.num, m.aps, m.tb) && WfGrammar(m.g)
  {
  }

  ghost function GotoDecision(m: Machine, s: nat, x: nat): Effect {
    DecideGoto(m.g, ListOf(m, s), x)
  }

  /** What a decision on nonterminal `x` in state `i` can be. */
  ghost predicate GotoJustified(g: Grammar, a: Automaton, i: nat, x: nat, e: Effect)
    requires i < |a.states|
  {
    match e.kind
    case Shift => Goes(g, a, i, x, e.target)
    case Accept => i == 0 && x == g.start
    case Reduce => e.target < |g.rules|
    case ErrorAction => e == ERROR_EFFECT
    case _ => false
  }

  lemma GotoLookupMeans(m: Machine, s: nat, x: nat)
    requires Usable(m) && s < m.tb.nstate && IsNonterminal(m.g, x)
    ensures WfTables(m.tb) && StateId(m, s) < |m.a.states|
    ensures FindReduceAction(m.tb, s, x) == EffectCode(m.num, m.tb.nrule, GotoDecision(m, s, x))
    ensures GotoJustified(m.g, m.a, StateId(m, s), x, GotoDecision(m, s, x))
  {
    hide Lr0, StateOk, Sane, TablesFor, FallbackAcyclic, ShortRules, UniqueLive, Goes;
    MachineTables(m);
    StateNumber(m, s);
    MachineLists(m);
    ReduceLookup(m.g, m.num, m.aps, m.tb, StateId(m, s), x);
    var own := LiveOn(ListOf(m, s), x);
    if own.Some? {
      assert ActionSane(m.g, m.a, StateId(m, s), own.value);
    } else {
      DefaultJustified(m.g, m.a, StateId(m, s), ListOf(m, s), 0);
    }
  }
}
