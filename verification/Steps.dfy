/** Each turn of the parsing loop in terms of the automaton: which decision it takes and what it
    does to the stack. */
module Steps {
  import opened Grammars
  import opened FirstSets
  import opened Automata
  import opened Compression
  import opened ParserTables
  import opened Emit
  import opened Driver
  import opened Machines
  import opened StackInvariants

  lemma MachineUsable(m: Machine)
    requires Usable(m)
    ensures TablesUsable(m.tb) && m.tb.depth > 0 && m.tb.nstate > 0
    ensures m.tb.nrule == |m.g.rules| && |m.num| == m.tb.nstate
    ensures m.tb.NoCode() > m.g.nsymbol && m.tb.errsym == m.g.errsym && IsNonterminal(m.g, m.g.errsym)
  {
    hide StateOk, Sane, FallbackAcyclic, ShortRules, RowOk;
    MachineTables(m);
  }

  /** A shift decision is a move of the automaton. */
  lemma ShiftMoves(m: Machine, s: nat, x: nat, j: nat)
    requires Usable(m) && s < m.tb.nstate && Goes(m.g, m.a, StateId(m, s), x, j)
    ensures j < |m.num| && m.num[j] < m.tb.nstate && Moves(m, s, x, m.num[j]) && x > 0
  {
    hide Usable;
    MachineIsWf(m);
    GoesPositive(m.g, m.a, StateId(m, s), x, j);
    SizesAgree(m);
    NumberOfState(m, j);
  }

  lemma SizesAgree(m: Machine)
    requires Usable(m)
    ensures |m.num| == m.tb.nstate == |m.a.states| == |m.sorted| == |m.aps|
  {
  }

  /** How one turn begins: the state on top and the pending token decide. */
  lemma StepShape(m: Machine, c: Config, form: seq<nat>)
    requires Usable(m) && StackOf(m, c.stack, form) && c.major < m.g.nterminal
    ensures TablesUsable(m.tb)
    ensures var s, e := Top(c.stack).stateno, ShiftDecision(m, Top(c.stack).stateno, c.major);
      match e.kind
      case Shift =>
        && c.major > 0 && e.target < |m.num|
        && (exists x: nat :: ReadAs(m.g, c.major, x) && 0 < x < m.g.nterminal && Moves(m, s, x, m.num[e.target]))
        && var st := Push(m.tb, c.stack, Entry(m.num[e.target], c.major));
           Step(m.tb, c) == c.(stack := st, errcnt := c.errcnt - 1,
             major := if c.endofinput && st != [] then 0 else m.tb.NoCode(),
             log := c.log + [Shifted(c.major)] + if st == [] then [Overflowed] else [])
      case Reduce =>
        && e.target < m.tb.nrule == |m.g.rules|
        && ItemAt(m, c.stack, |c.stack| - 1, Item(e.target, |m.g.rules[e.target].rhs|))
        && Step(m.tb, c) == ReduceStep(m.tb, c, e.target)
      case _ => e.kind == ErrorAction && Step(m.tb, c) == ErrorStep(m.tb, c)
  {
    hide Usable, StackOf, ReduceStep, ErrorStep, Moves, Goes, FindShiftAction, ReadAs;
    MachineUsable(m);
    TopInRange(m, c.stack, form);
    var s := Top(c.stack).stateno;
    ShiftLookupMeans(m, s, c.major);
    var e := ShiftDecision(m, s, c.major);
    if e.kind == Shift {
      var x: nat :| ReadAs(m.g, c.major, x) && 0 < x < m.g.nterminal && Goes(m.g, m.a, StateId(m, s), x, e.target);
      ShiftMoves(m, s, x, e.target);
    }
  }

  lemma TopInRange(m: Machine, st: seq<Entry>, form: seq<nat>)
    requires StackOf(m, st, form)
    ensures st != [] && Top(st).stateno < m.tb.nstate
  {
    StatesInRange(m, st, form, |st| - 1);
  }

  /** A reduce finds its right-hand side on top of the stack and leaves the state below it. */
  lemma HandleOnTop(m: Machine, st: seq<Entry>, form: seq<nat>, r: nat)
    requires Usable(m) && StackOf(m, st, form) && r < |m.g.rules|
    requires ItemAt(m, st, |st| - 1, Item(r, |m.g.rules[r].rhs|))
    ensures r < m.tb.nrule == |m.tb.ruleInfo| && m.tb.ruleInfo[r].lhs == m.g.rules[r].lhs
    ensures var n := |m.g.rules[r].rhs|;
      && n == m.tb.ruleInfo[r].nrhs <= |form| < |st|
      && SpellsAll(m.g.rules[r].rhs, form[|form| - n..])
      && StackOf(m, st[..|st| - n], form[..|form| - n])
      && ItemAt(m, st[..|st| - n], |st| - n - 1, Item(r, 0))
  {
    hide Usable, Spells, Moves, ReadAs;
    var n := |m.g.rules[r].rhs|;
    RuleTable(m, r);
    ItemOnStack(m, st, form, |st| - 1, Item(r, n));
    assert m.g.rules[r].rhs[..n] == m.g.rules[r].rhs;
    assert form[|form| - n..|form|] == form[|form| - n..];
    StackPrefix(m, st, form, |st| - 1 - n);
  }

  lemma RuleTable(m: Machine, r: nat)
    requires Usable(m) && r < |m.g.rules|
    ensures r < m.tb.nrule == |m.tb.ruleInfo|
    ensures m.tb.ruleInfo[r] == RuleInfo(m.g.rules[r].lhs, |m.g.rules[r].rhs|)
    ensures IsNonterminal(m.g, m.g.rules[r].lhs)
  {
    hide StateOk, Sane, FallbackAcyclic, RowOk;
    assert WfRule(m.g, m.g.rules[r]);
  }

  /** A whole reduce: an accept by the start rule when nothing but its right-hand side is on the
      stack, and otherwise the push of the left-hand side. */
  lemma ReduceShape(m: Machine, c: Config, form: seq<nat>, r: nat)
    requires Usable(m) && StackOf(m, c.stack, form) && r < |m.g.rules|
    requires ItemAt(m, c.stack, |c.stack| - 1, Item(r, |m.g.rules[r].rhs|))
    ensures WfTables(m.tb) && r < m.tb.nrule
    ensures var n, lhs, log := |m.g.rules[r].rhs|, m.g.rules[r].lhs, c.log + [Reduced(r)];
      && n <= |form| < |c.stack|
      && SpellsAll(m.g.rules[r].rhs, form[|form| - n..])
      && if lhs == m.g.start then
           n == |form| && ReduceStep(m.tb, c, r) == c.(stack := [], log := log + [Accepted])
         else
           var below := c.stack[..|c.stack| - n];
           var e := GotoDecision(m, Top(below).stateno, lhs);
           && e.target < |m.num| && e.kind == Shift
           && StackOf(m, below, form[..|form| - n])
           && Moves(m, Top(below).stateno, lhs, m.num[e.target])
           && ReduceStep(m.tb, c, r) ==
                if n > 0 || |below| < m.tb.depth then c.(stack := below + [Entry(m.num[e.target], lhs)], log := log)
                else c.(stack := [], log := log + [Overflowed])
  {
    hide Usable, StackOf, Moves, Goes, FindReduceAction, SpellsAll;
    MachineUsable(m);
    TopInRange(m, c.stack, form);
    RuleTable(m, r);
    HandleOnTop(m, c.stack, form, r);
    var n, lhs := |m.g.rules[r].rhs|, m.g.rules[r].lhs;
    var below := c.stack[..|c.stack| - n];
    TopInRange(m, below, form[..|form| - n]);
    GotoHits(m, below, form[..|form| - n], |below| - 1, r);
    var s := Top(below).stateno;
    GotoLookupMeans(m, s, lhs);
    var e := GotoDecision(m, s, lhs);
    if lhs != m.g.start {
      ShiftMoves(m, s, lhs, e.target);
    }
    FormLength(m, c.stack, form);
  }

  lemma FormLength(m: Machine, st: seq<Entry>, form: seq<nat>)
    requires StackOf(m, st, form)
    ensures |st| == |form| + 1 <= m.tb.depth
  {
  }

  /** Whether the state on top can shift the error symbol. */
  ghost predicate ShiftsError(m: Machine, e: Entry) {
    GotoDecision(m, e.stateno, m.g.errsym).kind == Shift
  }

  lemma ErrorGoto(m: Machine, st: seq<Entry>, form: seq<nat>)
    requires Usable(m) && StackOf(m, st, form)
    ensures WfTables(m.tb) && st != []
    ensures LookupReduce(m.tb, st, m.tb.errsym) < m.tb.nstate <==> ShiftsError(m, Top(st))
    ensures ShiftsError(m, Top(st)) ==>
      var j := GotoDecision(m, Top(st).stateno, m.g.errsym).target;
      j < |m.num| && LookupReduce(m.tb, st, m.tb.errsym) == m.num[j] && Moves(m, Top(st).stateno, m.g.errsym, m.num[j])
  {
    hide Usable, StackOf, Moves, Goes, FindReduceAction;
    MachineUsable(m);
    TopInRange(m, st, form);
    var s := Top(st).stateno;
    GotoLookupMeans(m, s, m.g.errsym);
    var e := GotoDecision(m, s, m.g.errsym);
    if e.kind == Shift {
      ShiftMoves(m, s, m.g.errsym, e.target);
    }
  }

  lemma PopOne(tb: Tables, st: seq<Entry>)
    requires WfTables(tb) && st != []
    ensures PopToError(tb, st) ==
            if LookupReduce(tb, st, tb.errsym) >= tb.nstate then PopToError(tb, st[..|st| - 1]) else st
    ensures PopToError(tb, []) == []
  {
  }

  /** Recovery stops at the topmost state that can shift the error symbol. */
  lemma {:induction false} PopStopsAtTopmost(m: Machine, st: seq<Entry>, form: seq<nat>)
    requires Usable(m) && StackOf(m, st, form)
    ensures WfTables(m.tb)
    ensures var k := |PopToError(m.tb, st)|;
      && k <= |st| && PopToError(m.tb, st) == st[..k]
      && (k > 0 ==> ShiftsError(m, st[k - 1]))
      && (forall j | k <= j < |st| :: !ShiftsError(m, st[j]))
    decreases |st|
  {
    hide Usable, StackOf, ShiftsError, PopToError, LookupReduce, Moves;
    ErrorGoto(m, st, form);
    PopOne(m.tb, st);
    FormLength(m, st, form);
    if !ShiftsError(m, Top(st)) && |st| > 1 {
      StackPrefix(m, st, form, |st| - 2);
      PopStopsAtTopmost(m, st[..|st| - 1], form[..|form| - 1]);
      var k := |PopToError(m.tb, st[..|st| - 1])|;
      assert st[..|st| - 1][..k] == st[..k];
    }
  }

  /** The response to an error: discard the token, fail, or push the error symbol. */
  lemma ErrorShape(m: Machine, c: Config, form: seq<nat>)
    requires Usable(m) && StackOf(m, c.stack, form)
    ensures WfTables(m.tb)
    ensures var d := ErrorStep(m.tb, c);
      && d.errorhit && d.endofinput == c.endofinput && d.errcnt == 3
      && if Top(c.stack).major == m.g.errsym || c.errorhit then
           d.stack == c.stack && d.major == m.tb.NoCode()
           && d.log == c.log + [Errored(c.major, c.errcnt < 0), Discarded(c.major)]
         else if PopToError(m.tb, c.stack) == [] || c.major == 0 then
           d.stack == [] && d.major == m.tb.NoCode()
           && d.log == c.log + [Errored(c.major, c.errcnt < 0), Discarded(c.major), Failed]
         else
           var st := PopToError(m.tb, c.stack);
           var e := GotoDecision(m, Top(st).stateno, m.g.errsym);
           && |st| <= |c.stack| && st == c.stack[..|st|] && e.kind == Shift && e.target < |m.num|
           && StackOf(m, st, form[..|st| - 1])
           && Moves(m, Top(st).stateno, m.g.errsym, m.num[e.target])
           && d.major == c.major
           && d.stack == Push(m.tb, st, Entry(m.num[e.target], m.g.errsym))
           && d.log == c.log + [Errored(c.major, c.errcnt < 0), if d.stack == [] then Overflowed else ErrorShifted]
  {
    hide Usable, StackOf, Moves, LookupReduce, PopToError;
    PopStopsAtTopmost(m, c.stack, form);
    FormLength(m, c.stack, form);
    MachineUsable(m);
    var st := PopToError(m.tb, c.stack);
    if st != [] {
      StackPrefix(m, c.stack, form, |st| - 1);
      ErrorGoto(m, st, form[..|st| - 1]);
    }
  }
}
