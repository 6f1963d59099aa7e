/** Renumbering the states is an isomorphism: parsers that differ only in the numbers of their
    states, and in the packing of their tables, make corresponding steps. */
module Renumbering {
  import opened Grammars
  import opened Automata
  import opened Compression
  import opened ParserTables
  import opened Report
  import opened Emit
  import opened Lookups
  import opened Driver
  import opened Machines
  import opened StackInvariants
  import opened Steps
  import opened Soundness

  /** Two machines for the same automaton and action lists. */
  ghost predicate Twins(m: Machine, p: Machine) {
    && Usable(m) && Usable(p)
    && m.g == p.g && m.a == p.a && m.aps == p.aps && m.tb.depth == p.tb.depth
  }

  ghost function Renamed(m: Machine, p: Machine, e: Entry): Entry {
    Entry(if StateId(m, e.stateno) < |p.num| then p.num[StateId(m, e.stateno)] else 0, e.major)
  }

  ghost function RenameStack(m: Machine, p: Machine, st: seq<Entry>): (r: seq<Entry>)
    ensures |r| == |st| && forall k | 0 <= k < |st| :: r[k] == Renamed(m, p, st[k])
  {
    seq(|st|, k requires 0 <= k < |st| => Renamed(m, p, st[k]))
  }

  ghost function Rename(m: Machine, p: Machine, c: Config): Config {
    c.(stack := RenameStack(m, p, c.stack))
  }

  /** The renaming is a bijection of the state numbers that fixes 0. */
  lemma RenamedState(m: Machine, p: Machine, s: nat)
    requires Twins(m, p) && s < m.tb.nstate
    ensures var e := Renamed(m, p, Entry(s, 0));
      e.stateno < p.tb.nstate == m.tb.nstate && StateId(p, e.stateno) == StateId(m, s) && Renamed(p, m, e).stateno == s
    ensures s == 0 ==> Renamed(m, p, Entry(s, 0)).stateno == 0
  {
    hide Usable;
    StateNumber(m, s);
    SizesAgree(m);
    SizesAgree(p);
    NumberOfState(p, StateId(m, s));
    LevelState(m, s);
    ZeroIsZero(p);
  }

  lemma ZeroIsZero(p: Machine)
    requires Usable(p)
    ensures |p.num| > 0 && p.num[0] == 0
  {
    hide Sane, RowOk, StateOk;
    SizesAgree(p);
  }

  lemma RenamedTarget(m: Machine, p: Machine, j: nat, major: nat)
    requires Twins(m, p) && j < |m.num|
    ensures j < |p.num| && Renamed(m, p, Entry(m.num[j], major)) == Entry(p.num[j], major)
  {
    hide Usable;
    SizesAgree(m);
    SizesAgree(p);
    NumberOfState(m, j);
  }

  /** Both machines take the same decisions in corresponding states. */
  lemma SameDecisions(m: Machine, p: Machine, s: nat, x: nat)
    requires Twins(m, p) && s < m.tb.nstate
    ensures var s' := Renamed(m, p, Entry(s, 0)).stateno;
      ShiftDecision(p, s', x) == ShiftDecision(m, s, x) && GotoDecision(p, s', x) == GotoDecision(m, s, x)
  {
    hide Usable, Decide, DecideGoto;
    RenamedState(m, p, s);
    SameFallback(m, p);
    MachineTables(m);
  }

  lemma SameFallback(m: Machine, p: Machine)
    requires Twins(m, p)
    ensures |m.tb.fallback| == |p.tb.fallback| && m.tb.NoCode() == p.tb.NoCode() && m.tb.nrule == p.tb.nrule
  {
    hide Sane, RowOk, Lr0, Numbering, FallbackAcyclic;
  }

  lemma RenamedPath(m: Machine, p: Machine, st: seq<Entry>, form: seq<nat>)
    requires Twins(m, p) && StackOf(m, st, form)
    ensures StackOf(p, RenameStack(m, p, st), form)
  {
    hide Usable, Goes, ReadAs;
    var r := RenameStack(m, p, st);
    SizesAgree(m);
    SizesAgree(p);
    RenamedState(m, p, 0);
    forall k | 0 <= k < |form|
      ensures Moves(p, r[k].stateno, form[k], r[k + 1].stateno) && ReadAs(p.g, r[k + 1].major, form[k])
    {
      assert Moves(m, st[k].stateno, form[k], st[k + 1].stateno);
      RenamedState(m, p, st[k].stateno);
      RenamedState(m, p, st[k + 1].stateno);
    }
  }

  lemma RenamePush(m: Machine, p: Machine, st: seq<Entry>, e: Entry)
    requires m.tb.depth == p.tb.depth
    ensures RenameStack(m, p, Push(m.tb, st, e)) == Push(p.tb, RenameStack(m, p, st), Renamed(m, p, e))
    ensures RenameStack(m, p, st + [e]) == RenameStack(m, p, st) + [Renamed(m, p, e)]
    ensures forall k | 0 <= k <= |st| :: RenameStack(m, p, st[..k]) == RenameStack(m, p, st)[..k]
  {
  }

  lemma ReduceCommutes(m: Machine, p: Machine, c: Config, form: seq<nat>, r: nat)
    requires Twins(m, p) && StackOf(m, c.stack, form) && r < |m.g.rules|
    requires ItemAt(m, c.stack, |c.stack| - 1, Item(r, |m.g.rules[r].rhs|))
    ensures WfTables(m.tb) && WfTables(p.tb) && r < m.tb.nrule && r < p.tb.nrule
    ensures ReduceStep(p.tb, Rename(m, p, c), r) == Rename(m, p, ReduceStep(m.tb, c, r))
  {
    hide Usable, StackOf, Moves, ReduceStep, SpellsAll, ShiftDecision, GotoDecision, Renamed;
    var c' := Rename(m, p, c);
    RenamedPath(m, p, c.stack, form);
    SameItems(m, p, c.stack, form, Item(r, |m.g.rules[r].rhs|));
    ReduceShape(m, c, form, r);
    ReduceShape(p, c', form, r);
    FormLength(m, c.stack, form);
    var n, lhs := |m.g.rules[r].rhs|, m.g.rules[r].lhs;
    if lhs != m.g.start {
      var below := c.stack[..|c.stack| - n];
      TopInRange(m, below, form[..|form| - n]);
      RenamePush(m, p, c.stack, Top(below));
      assert RenameStack(m, p, below) == c'.stack[..|c'.stack| - n];
      var s := Top(below).stateno;
      DecisionOfRenamed(m, p, Top(below), lhs);
      var j := GotoDecision(m, s, lhs).target;
      RenamedTarget(m, p, j, lhs);
      RenamePush(m, p, below, Entry(m.num[j], lhs));
    }
  }

  lemma DecisionOfRenamed(m: Machine, p: Machine, e: Entry, x: nat)
    requires Twins(m, p) && e.stateno < m.tb.nstate
    ensures ShiftDecision(p, Renamed(m, p, e).stateno, x) == ShiftDecision(m, e.stateno, x)
    ensures GotoDecision(p, Renamed(m, p, e).stateno, x) == GotoDecision(m, e.stateno, x)
    ensures Renamed(m, p, e).major == e.major
  {
    hide Usable, ShiftDecision, GotoDecision;
    SameDecisions(m, p, e.stateno, x);
  }

  lemma SameItems(m: Machine, p: Machine, st: seq<Entry>, form: seq<nat>, it: Item)
    requires Twins(m, p) && StackOf(m, st, form) && ItemAt(m, st, |st| - 1, it)
    ensures ItemAt(p, RenameStack(m, p, st), |st| - 1, it)
  {
    hide Usable, StackOf;
    TopInRange(m, st, form);
    RenamedState(m, p, Top(st).stateno);
  }

  lemma {:induction false} PopCommutes(m: Machine, p: Machine, st: seq<Entry>, form: seq<nat>)
    requires Twins(m, p) && StackOf(m, st, form)
    ensures WfTables(m.tb) && WfTables(p.tb)
    ensures PopToError(p.tb, RenameStack(m, p, st)) == RenameStack(m, p, PopToError(m.tb, st))
  {
    hide Usable, StackOf, PopToError, GotoDecision, Renamed;
    var r := RenameStack(m, p, st);
    RenamedPath(m, p, st, form);
    PopStopsAtTopmost(m, st, form);
    PopStopsAtTopmost(p, r, form);
    forall k | 0 <= k < |st| ensures ShiftsError(p, r[k]) <==> ShiftsError(m, st[k]) {
      StatesInRange(m, st, form, k);
      DecisionOfRenamed(m, p, st[k], m.g.errsym);
    }
    var k, l := |PopToError(m.tb, st)|, |PopToError(p.tb, r)|;
    assert k > 0 ==> ShiftsError(p, r[k - 1]);
    assert l > 0 ==> ShiftsError(m, st[l - 1]);
    assert RenameStack(m, p, st[..k]) == r[..k];
  }

  lemma ErrorCommutes(m: Machine, p: Machine, c: Config, form: seq<nat>)
    requires Twins(m, p) && StackOf(m, c.stack, form)
    ensures WfTables(m.tb) && WfTables(p.tb)
    ensures ErrorStep(p.tb, Rename(m, p, c)) == Rename(m, p, ErrorStep(m.tb, c))
  {
    hide Usable, StackOf, Moves, PopToError, ShiftDecision, GotoDecision, Renamed, FindReduceAction;
    var c' := Rename(m, p, c);
    MachineUsable(m);
    MachineUsable(p);
    SameFallback(m, p);
    FormLength(m, c.stack, form);
    TopInRange(m, c.stack, form);
    RenamedPath(m, p, c.stack, form);
    DecisionOfRenamed(m, p, Top(c.stack), m.g.errsym);
    PopCommutes(m, p, c.stack, form);
    PopStopsAtTopmost(m, c.stack, form);
    var st := PopToError(m.tb, c.stack);
    if st != [] {
      StackPrefix(m, c.stack, form, |st| - 1);
      var form0 := form[..|st| - 1];
      TopInRange(m, st, form0);
      RenamedPath(m, p, st, form0);
      ErrorGoto(m, st, form0);
      ErrorGoto(p, RenameStack(m, p, st), form0);
      DecisionOfRenamed(m, p, Top(st), m.g.errsym);
      var j := GotoDecision(m, Top(st).stateno, m.g.errsym).target;
      RenamedTarget(m, p, j, m.g.errsym);
      RenamePush(m, p, st, Entry(m.num[j], m.g.errsym));
    }
  }

  /** Corresponding turns. */
  lemma StepCommutes(m: Machine, p: Machine, c: Config)
    requires Twins(m, p) && Safe(m, c) && c.stack != [] && c.major < m.g.nterminal
    ensures TablesUsable(m.tb) && TablesUsable(p.tb)
    ensures Step(p.tb, Rename(m, p, c)) == Rename(m, p, Step(m.tb, c))
  {
    hide Usable, StackOf, Moves, Step, ErrorStep, ReduceStep, ShiftDecision, GotoDecision, Renamed, ReadAs;
    var form :| StackOf(m, c.stack, form);
    var c' := Rename(m, p, c);
    RenamedPath(m, p, c.stack, form);
    TopInRange(m, c.stack, form);
    DecisionOfRenamed(m, p, Top(c.stack), c.major);
    SameFallback(m, p);
    StepShape(m, c, form);
    StepShape(p, c', form);
    var e := ShiftDecision(m, Top(c.stack).stateno, c.major);
    if e.kind == Shift {
      RenamedTarget(m, p, e.target, c.major);
      RenamePush(m, p, c.stack, Entry(m.num[e.target], c.major));
    } else if e.kind == Reduce {
      ReduceCommutes(m, p, c, form, e.target);
    } else {
      ErrorCommutes(m, p, c, form);
    }
  }

  lemma {:induction false} RunCommutes(m: Machine, p: Machine, c: Config, n: nat)
    requires Twins(m, p) && Safe(m, c)
    ensures TablesUsable(m.tb) && TablesUsable(p.tb)
    ensures Run(p.tb, Rename(m, p, c), n) == Rename(m, p, Run(m.tb, c, n))
    decreases n
  {
    hide Usable, Step, IsPath, Renamed;
    MachineUsable(m);
    MachineUsable(p);
    SameFallback(m, p);
    if n > 0 && Running(m.tb, c) {
      StepSafe(m, c);
      StepCommutes(m, p, c);
      RunCommutes(m, p, Step(m.tb, c), n - 1);
    }
  }

  lemma BeginCommutes(m: Machine, p: Machine, c: Config, t: nat)
    requires Twins(m, p)
    ensures Begin(Rename(m, p, c), t) == Rename(m, p, Begin(c, t))
  {
    hide Usable;
    SizesAgree(m);
    MachineUsable(m);
    if c.stack == [] {
      RenamedState(m, p, 0);
      assert RenameStack(m, p, [Entry(0, 0)]) == [Entry(0, 0)];
    }
  }

  /** For every sequence of tokens the two parsers go through corresponding configurations, so
      they shift, reduce, accept, recover and fail alike. */
  lemma {:induction false} SessionCommutes(m: Machine, p: Machine, c: Config, tokens: seq<nat>, limit: nat)
    requires Twins(m, p) && Safe(m, c) && Terminals(m.g, tokens)
    ensures TablesUsable(m.tb) && TablesUsable(p.tb)
    ensures Session(p.tb, Rename(m, p, c), tokens, limit) == Rename(m, p, Session(m.tb, c, tokens, limit))
    decreases |tokens|
  {
    hide Usable, Run, Safe, Begin, Renamed;
    MachineUsable(m);
    MachineUsable(p);
    SameFallback(m, p);
    if tokens != [] && !Running(m.tb, c) {
      BeginSafe(m, c, tokens[0]);
      BeginCommutes(m, p, c, tokens[0]);
      RunSafe(m, Begin(c, tokens[0]), limit);
      RunCommutes(m, p, Begin(c, tokens[0]), limit);
      SessionCommutes(m, p, Run(m.tb, Begin(c, tokens[0]), limit), tokens[1..], limit);
    }
  }
}
