/** Exactly when the parser accepts before the end of the input: only a compressed state that
    reduces by a start rule by default does it. */
module EarlyAccepts {
  import opened Grammars
  import opened FirstSets
  import opened Automata
  import opened FollowSets
  import opened Actions
  import opened Compression
  import opened ParserTables
  import opened Driver
  import opened Machines
  import opened StackInvariants
  import opened Steps
  import opened Soundness
  import opened OneCall
  import opened Completeness
  import opened Lookaheads
  import opened Products

  ghost predicate StartRule(g: Grammar, r: nat) {
    r < |g.rules| && g.rules[r].lhs == g.start
  }

  // ----- Decisions -----

  /** The list reduces by start rules at the end of the input only, and has no default. */
  ghost predicate StartAtEnd(g: Grammar, ap0: seq<Action>) {
    && UniqueLive(ap0) && LiveOn(ap0, g.nsymbol).None?
    && forall act | act in ap0 && act.kind == Reduce && StartRule(g, act.target) :: act.sp == 0
  }

  lemma RawStartAtEnd(m: Machine, q: Sets, aps0: seq<seq<Action>>, compress: bool, i: nat, act: Action)
    requires Generated(m, q, aps0, compress) && i < |aps0| && IsRaw(m.g, m.a, q.f, i, act)
    ensures act.sp != m.g.nsymbol && (act.kind == Reduce && StartRule(m.g, act.target) ==> act.sp == 0)
  {
    hide Usable, Partial, ActionTable, ExactFollow, ListMade, FirstSetsOf;
    MachineIsWf(m);
    CollectionIsPartial(m.g, q.lam, q.first, m.a);
    if act in m.a.states[i].ap {
      ShiftIsSane(m.g, q.lam, q.first, m.a, i, act);
    } else if act.kind == Reduce && StartRule(m.g, act.target) {
      StartRulesWaitForEnd(m.g, q.lam, q.first, m.a, q.f, Cfg(i, Item(act.target, |m.g.rules[act.target].rhs|)));
    }
  }

  lemma ListStartsAtEnd(m: Machine, q: Sets, aps0: seq<seq<Action>>, compress: bool, i: nat)
    requires Generated(m, q, aps0, compress) && i < |aps0|
    ensures StartAtEnd(m.g, aps0[i])
  {
    hide Usable, Collection, ExactFollow, ListMade, FirstSetsOf, IsRaw;
    assert ActionsFor(m.g, m.a, q.f, i, aps0[i]);
    forall act | act in aps0[i] && Live(act)
      ensures act.sp != m.g.nsymbol && (act.kind == Reduce && StartRule(m.g, act.target) ==> act.sp == 0)
    {
      RawStartAtEnd(m, q, aps0, compress, i, act);
    }
  }

  /** Without compression a start rule is reduced by at the end of the input only. */
  lemma {:induction false} PlainWaits(g: Grammar, ap0: seq<Action>, s: nat, t: nat, n: nat)
    requires StartAtEnd(g, ap0) && StartRule(g, s) && t > 0 && ChainEnds(g.fallback, t, n)
    requires g.wildcard.Some? ==> g.wildcard.value > 0
    ensures Decide(g, ap0, t, n) != Effect(Reduce, s)
    decreases n
  {
    hide UniqueLive;
    if LiveOn(ap0, t).None? && HasFallback(g, t) {
      PlainWaits(g, ap0, s, g.fallback[t], n - 1);
    }
  }

  /** With compression a start rule is reduced by on any other token if and only if it is the
      default of the state and the token reaches the default. */
  lemma {:induction false} CompressedWaits(g: Grammar, ap0: seq<Action>, ap: seq<Action>,
                                           r: nat, s: nat, t: nat, n: nat)
    requires StartAtEnd(g, ap0) && CompressedBy(g, ap0, ap, r) && StartRule(g, s)
    requires 0 < t < g.nsymbol && ChainEnds(g.fallback, t, n)
    requires g.wildcard.Some? ==> 0 < g.wildcard.value < g.nsymbol
    requires forall k | 0 <= k < |g.fallback| :: g.fallback[k] < g.nsymbol
    ensures Decide(g, ap, t, n) == Effect(Reduce, s) <==> s == r && ReachesDefault(g, ap0, r, t, n)
    decreases n
  {
    hide MostFrequent, UsesWildcard, CompressedBy, UniqueLive;
    if s == r {
      DefaultFoundIff(g, ap0, ap, r, t, n);
    } else if LiveOn(ap0, t).Some? && !IsReduceBy(LiveOn(ap0, t).value, r) {
      OthersPreserved(g, ap0, ap, r, t, n);
    } else {
      OwnAfter(g, ap0, ap, r, t);
      WildcardAfter(g, ap0, ap, r, t);
      DefaultAfter(g, ap0, ap, r);
      if HasFallback(g, t) {
        CompressedWaits(g, ap0, ap, r, s, g.fallback[t], n - 1);
      }
    }
  }

  /** In the state numbered `s` a start rule is the default and token `t` reaches it. */
  ghost predicate EarlyDefault(m: Machine, aps0: seq<seq<Action>>, s: nat, t: nat)
    requires Usable(m)
  {
    MachineTables(m);
    var i, d := StateId(m, s), DefaultEffect(m.g, ListOf(m, s));
    && i < |aps0| && d.kind == Reduce && StartRule(m.g, d.target)
    && ReachesDefault(m.g, aps0[i], d.target, t, |m.tb.fallback|)
  }

  ghost predicate ReducesStart(g: Grammar, e: Effect) {
    e.kind == Reduce && StartRule(g, e.target)
  }

  lemma DecisionReducesStart(m: Machine, q: Sets, aps0: seq<seq<Action>>, compress: bool, s: nat, t: nat)
    requires Generated(m, q, aps0, compress) && s < m.tb.nstate && 0 < t < m.g.nterminal
    ensures ReducesStart(m.g, ShiftDecision(m, s, t)) <==> EarlyDefault(m, aps0, s, t)
  {
    hide Usable, Collection, ExactFollow, FirstSetsOf, ActionTable, StartAtEnd, CompressedBy, UsesWildcard, ListSane;
    MachineTables(m);
    MachineIsWf(m);
    StateNumber(m, s);
    var i := StateId(m, s);
    var ap0, ap, n := aps0[i], m.aps[i], |m.tb.fallback|;
    ListStartsAtEnd(m, q, aps0, compress, i);
    assert ListMade(m.g, ap0, ap, compress);
    var e := ShiftDecision(m, s, t);
    if ap == ap0 {
      NoDefault(m.g, ap0);
      if ReducesStart(m.g, e) {
        PlainWaits(m.g, ap0, e.target, t, n);
      }
    } else {
      var r: nat :| CompressedBy(m.g, ap0, ap, r);
      IsUnique(m.g, ap0);
      DefaultAfter(m.g, ap0, ap, r);
      if ReducesStart(m.g, e) {
        CompressedWaits(m.g, ap0, ap, r, e.target, t, n);
      }
      if StartRule(m.g, r) {
        CompressedWaits(m.g, ap0, ap, r, r, t, n);
      }
    }
  }

  lemma NoDefault(g: Grammar, ap0: seq<Action>)
    requires StartAtEnd(g, ap0)
    ensures DefaultEffect(g, ap0) == ERROR_EFFECT
  {
  }

  lemma IsUnique(g: Grammar, ap0: seq<Action>)
    requires StartAtEnd(g, ap0)
    ensures UniqueLive(ap0)
  {
  }

  // ----- Turns and calls -----

  ghost predicate Accepts(d: Config) {
    d.stack == [] && d.log != [] && d.log[|d.log| - 1] == Accepted
  }

  /** A turn on a token other than the end of the input accepts if and only if the state on top
      reduces by a start rule by default. */
  lemma TurnAccepts(m: Machine, q: Sets, aps0: seq<seq<Action>>, compress: bool, c: Config)
    requires Generated(m, q, aps0, compress) && Safe(m, c) && c.stack != [] && 0 < c.major < m.g.nterminal
    ensures TablesUsable(m.tb)
    ensures Accepts(Step(m.tb, c)) <==> EarlyDefault(m, aps0, Top(c.stack).stateno, c.major)
  {
    hide Usable, Generated, StackOf, Moves, Step, ReduceStep, ErrorStep, ReadAs, EarlyDefault, ShiftDecision, SpellsAll;
    GeneratedIsUsable(m, q, aps0, compress);
    var form :| StackOf(m, c.stack, form);
    TopInRange(m, c.stack, form);
    StepShape(m, c, form);
    DecisionReducesStart(m, q, aps0, compress, Top(c.stack).stateno, c.major);
    var e := ShiftDecision(m, Top(c.stack).stateno, c.major);
    if e.kind == Reduce {
      ReduceShape(m, c, form, e.target);
    } else if e.kind != Shift {
      ErrorShape(m, c, form);
    }
  }

  /** The call goes on and the state on top reduces by a start rule by default. */
  ghost predicate MeetsEarly(m: Machine, aps0: seq<seq<Action>>, d: Config)
    requires Usable(m)
  {
    Running(m.tb, d) && EarlyDefault(m, aps0, Top(d.stack).stateno, d.major)
  }

  lemma {:induction false} AcceptMetEarly(m: Machine, q: Sets, aps0: seq<seq<Action>>, compress: bool,
                                          c: Config, n: nat)
    returns (k: nat)
    requires Generated(m, q, aps0, compress) && Safe(m, c) && Running(m.tb, c) && c.major > 0
    requires TablesUsable(m.tb) && Accepts(Run(m.tb, c, n))
    requires !c.endofinput
    ensures MeetsEarly(m, aps0, Run(m.tb, c, k))
    decreases n
  {
    hide Usable, Generated, Step, EarlyDefault, IsPath;
    GeneratedIsUsable(m, q, aps0, compress);
    SafeIsPending(m, c);
    var d := Step(m.tb, c);
    TurnAccepts(m, q, aps0, compress, c);
    StepSafe(m, c);
    StepKeepsToken(m.tb, c);
    assert n > 0;
    RunOne(m.tb, c, n);
    if Running(m.tb, d) {
      var j := AcceptMetEarly(m, q, aps0, compress, d, n - 1);
      k := j + 1;
      RunOne(m.tb, c, k);
    } else {
      RunStopped(m.tb, d, n - 1);
      k := 0;
      RunZero(m.tb, c);
    }
  }

  lemma SafeIsPending(m: Machine, c: Config)
    requires Usable(m) && Safe(m, c) && Running(m.tb, c)
    ensures c.major < m.g.nterminal && c.stack != []
  {
    MachineUsable(m);
  }

  lemma StepKeepsToken(tb: Tables, c: Config)
    requires TablesUsable(tb) && c.stack != []
    ensures Step(tb, c).endofinput == c.endofinput
    ensures !c.endofinput && Running(tb, Step(tb, c)) ==> Step(tb, c).major == c.major
  {
    hide PopToError, FindShiftAction, FindReduceAction, ChainEnds;
  }

  /** A call with a token other than the end of the input accepts if and only if it comes to a
      state that reduces by a start rule by default on that token. */
  lemma CallAcceptsIff(m: Machine, q: Sets, aps0: seq<seq<Action>>, compress: bool, c0: Config, t: nat)
    requires Generated(m, q, aps0, compress) && Safe(m, c0) && 0 < t < m.g.nterminal && TablesUsable(m.tb)
    ensures (exists n: nat :: Accepts(Run(m.tb, Begin(c0, t), n))) <==>
            (exists n: nat :: MeetsEarly(m, aps0, Run(m.tb, Begin(c0, t), n)))
  {
    hide Usable, Generated, Step, EarlyDefault, IsPath, CallOk, Run;
    GeneratedIsUsable(m, q, aps0, compress);
    BeginSafe(m, c0, t);
    MachineUsable(m);
    MachineIsWf(m);
    var b := Begin(c0, t);
    if exists n: nat :: Accepts(Run(m.tb, b, n)) {
      var n: nat :| Accepts(Run(m.tb, b, n));
      var k := AcceptMetEarly(m, q, aps0, compress, b, n);
    }
    if exists n: nat :: MeetsEarly(m, aps0, Run(m.tb, b, n)) {
      var n: nat :| MeetsEarly(m, aps0, Run(m.tb, b, n));
      var d := Run(m.tb, b, n);
      RunSafe(m, b, n);
      var s := OneCallOk(m, c0, t, n);
      CallPending(m.tb, t, s, d);
      TurnAccepts(m, q, aps0, compress, d);
      RunNext(m.tb, b, n);
      assert Accepts(Run(m.tb, b, n + 1));
    }
  }

  // ----- Whole inputs -----

  /** No state reduces by a start rule by default on anything but the end of the input. */
  ghost predicate WaitsForEnd(m: Machine, aps0: seq<seq<Action>>)
    requires Usable(m)
  {
    forall s, t | 0 <= s < m.tb.nstate && 0 < t < m.g.nterminal :: !EarlyDefault(m, aps0, s, t)
  }

  /** Without compression every state waits. */
  lemma PlainParserWaits(m: Machine, q: Sets, aps0: seq<seq<Action>>)
    requires Generated(m, q, aps0, false)
    ensures WaitsForEnd(m, aps0)
  {
    hide Usable, Collection, ExactFollow, FirstSetsOf, ActionTable, StartAtEnd, ListSane, ReachesDefault;
    forall s, t | 0 <= s < m.tb.nstate && 0 < t < m.g.nterminal ensures !EarlyDefault(m, aps0, s, t) {
      StateNumber(m, s);
      ListStartsAtEnd(m, q, aps0, false, StateId(m, s));
      NoDefault(m.g, aps0[StateId(m, s)]);
      assert ListMade(m.g, aps0[StateId(m, s)], m.aps[StateId(m, s)], false);
    }
  }

  /** A parser that waits accepts only in a call with the end of the input, errors or not. */
  lemma NoCallAccepts(m: Machine, q: Sets, aps0: seq<seq<Action>>, compress: bool, c0: Config, t: nat, n: nat)
    requires Generated(m, q, aps0, compress) && WaitsForEnd(m, aps0)
    requires Safe(m, c0) && 0 < t < m.g.nterminal && TablesUsable(m.tb)
    ensures !Accepts(Run(m.tb, Begin(c0, t), n))
  {
    hide Usable, Generated, Run, EarlyDefault, IsPath;
    GeneratedIsUsable(m, q, aps0, compress);
    CallAcceptsIff(m, q, aps0, compress, c0, t);
    forall k: nat ensures !MeetsEarly(m, aps0, Run(m.tb, Begin(c0, t), k)) {
      BeginSafe(m, c0, t);
      RunSafe(m, Begin(c0, t), k);
      var d := Run(m.tb, Begin(c0, t), k);
      if Running(m.tb, d) {
        var s := OneCallOk(m, c0, t, k);
        CallPending(m.tb, t, s, d);
        SafeTop(m, d);
      }
    }
  }

  lemma SafeTop(m: Machine, d: Config)
    requires Safe(m, d) && d.stack != []
    ensures Top(d.stack).stateno < m.tb.nstate
  {
    var form :| StackOf(m, d.stack, form);
    TopInRange(m, d.stack, form);
  }

  /** For a parser that waits, an input accepted without an error is a sentence and the end of the
      input. */
  lemma AcceptedAtEnd(m: Machine, q: Sets, aps0: seq<seq<Action>>, compress: bool, tokens: seq<nat>, limit: nat)
    requires Generated(m, q, aps0, compress) && WaitsForEnd(m, aps0) && TablesUsable(m.tb)
    requires tokens != [] && Terminals(m.g, tokens) && NeverEmptied(m.tb, tokens, limit)
    requires var c := Session(m.tb, Idle(m.tb), tokens, limit); Clean(c.log) && Accepts(c)
    ensures tokens[|tokens| - 1] == 0
    ensures exists u :: ReadAllAs(m.g, tokens[..|tokens| - 1], u) && Sentence(m.g, u)
  {
    hide Usable, Generated, Run, EarlyDefault, IsPath, Session, WaitsForEnd, ReadAllAs;
    GeneratedIsUsable(m, q, aps0, compress);
    var n := |tokens| - 1;
    var before, t := tokens[..n], tokens[n];
    var c, d := Session(m.tb, Idle(m.tb), tokens, limit), Session(m.tb, Idle(m.tb), before, limit);
    assert tokens == before + [t];
    SessionSnoc(m.tb, Idle(m.tb), before, t, limit);
    IdleIsSafe(m);
    SessionSafe(m, Idle(m.tb), before, limit);
    ShiftedAreSupplied(m, tokens, limit);
    assert Accepted in c.log;
    AcceptIsSound(m, tokens, limit);
    if t > 0 && !Running(m.tb, d) {
      NoCallAccepts(m, q, aps0, compress, d, t, limit);
    }
  }
}
