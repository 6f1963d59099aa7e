/** Safety and soundness of every run of the parser. */
module Soundness {
  import opened Grammars
  import opened Derivations
  import opened Automata
  import opened ParserTables
  import opened Driver
  import opened Machines
  import opened StackInvariants
  import opened Steps

  // ----- Safety -----

  /** Nothing outside the stack or the tables was ever touched, and the stack is a path of the
      automaton from the start state. */
  ghost predicate Safe(m: Machine, c: Config) {
    && Stuck !in c.log
    && (c.stack != [] ==> IsPath(m, c.stack))
    && (c.major < m.g.nterminal || c.major == m.tb.NoCode())
  }

  ghost predicate IsPath(m: Machine, st: seq<Entry>) {
    exists form :: StackOf(m, st, form)
  }

  lemma PushIsPath(m: Machine, st: seq<Entry>, form: seq<nat>, e: Entry, x: nat)
    requires StackOf(m, st, form) && Moves(m, st[|st| - 1].stateno, x, e.stateno) && ReadAs(m.g, e.major, x)
    ensures Push(m.tb, st, e) != [] ==> StackOf(m, Push(m.tb, st, e), form + [x])
  {
    if |st| < m.tb.depth {
      StackPush(m, st, form, e, x);
    }
  }

  lemma ErrorSafe(m: Machine, c: Config, form: seq<nat>)
    requires Usable(m) && StackOf(m, c.stack, form) && Stuck !in c.log
    ensures WfTables(m.tb)
    ensures Stuck !in ErrorStep(m.tb, c).log
    ensures ErrorStep(m.tb, c).stack != [] ==> IsPath(m, ErrorStep(m.tb, c).stack)
    ensures ErrorStep(m.tb, c).major in {c.major, m.tb.NoCode()}
  {
    hide Usable, StackOf, Moves, ErrorStep, PopToError;
    ErrorShape(m, c, form);
    FormLength(m, c.stack, form);
    var st := PopToError(m.tb, c.stack);
    if !(Top(c.stack).major == m.g.errsym || c.errorhit) && st != [] && c.major != 0 {
      var e := GotoDecision(m, Top(st).stateno, m.g.errsym);
      ReadDirectly(m.g, m.g.errsym, m.g.errsym);
      PushIsPath(m, st, form[..|st| - 1], Entry(m.num[e.target], m.g.errsym), m.g.errsym);
    }
  }

  lemma StepSafe(m: Machine, c: Config)
    requires Usable(m) && Safe(m, c) && c.stack != [] && c.major < m.g.nterminal
    ensures TablesUsable(m.tb) && Safe(m, Step(m.tb, c))
  {
    hide Usable, StackOf, Moves, ErrorStep, ReduceStep, Step, ReadAs;
    var form :| StackOf(m, c.stack, form);
    FormLength(m, c.stack, form);
    MachineIsWf(m);
    StepShape(m, c, form);
    var e := ShiftDecision(m, Top(c.stack).stateno, c.major);
    if e.kind == Shift {
      var x: nat :| ReadAs(m.g, c.major, x) && 0 < x < m.g.nterminal
        && Moves(m, Top(c.stack).stateno, x, m.num[e.target]);
      PushIsPath(m, c.stack, form, Entry(m.num[e.target], c.major), x);
    } else if e.kind == Reduce {
      ReduceSafe(m, c, form, e.target);
      ReduceKeeps(m.tb, c, e.target);
    } else {
      ErrorSafe(m, c, form);
    }
  }

  lemma ReduceSafe(m: Machine, c: Config, form: seq<nat>, r: nat)
    requires Usable(m) && StackOf(m, c.stack, form) && Stuck !in c.log && r < |m.g.rules|
    requires ItemAt(m, c.stack, |c.stack| - 1, Item(r, |m.g.rules[r].rhs|))
    ensures WfTables(m.tb) && r < m.tb.nrule
    ensures Stuck !in ReduceStep(m.tb, c, r).log
    ensures ReduceStep(m.tb, c, r).stack != [] ==> IsPath(m, ReduceStep(m.tb, c, r).stack)
  {
    hide Usable, StackOf, Moves, ReduceStep, SpellsAll;
    ReduceShape(m, c, form, r);
    FormLength(m, c.stack, form);
    var n, lhs := |m.g.rules[r].rhs|, m.g.rules[r].lhs;
    if lhs != m.g.start {
      var below := c.stack[..|c.stack| - n];
      var e := GotoDecision(m, Top(below).stateno, lhs);
      ReadDirectly(m.g, lhs, lhs);
      PushIsPath(m, below, form[..|form| - n], Entry(m.num[e.target], lhs), lhs);
    }
  }

  lemma StartStack(m: Machine)
    requires Usable(m)
    ensures StackOf(m, [Entry(0, 0)], [])
  {
    hide Usable, Moves;
    MachineUsable(m);
  }

  lemma BeginSafe(m: Machine, c: Config, token: nat)
    requires Usable(m) && Safe(m, c) && token < m.g.nterminal
    ensures Safe(m, Begin(c, token)) && Begin(c, token).stack != []
  {
    hide Usable, Moves;
    MachineUsable(m);
    if c.stack == [] {
      assert StackOf(m, [Entry(0, 0)], []);
    }
  }

  /** No step of a call ever goes outside the stack or the tables. */
  lemma {:induction false} RunSafe(m: Machine, c: Config, n: nat)
    requires Usable(m) && Safe(m, c)
    ensures TablesUsable(m.tb) && Safe(m, Run(m.tb, c, n)) && NeverStuck(m.tb, Run(m.tb, c, n))
    decreases n
  {
    hide Usable, Step, IsPath;
    MachineUsable(m);
    PathInRange(m, c);
    if n > 0 && Running(m.tb, c) {
      StepSafe(m, c);
      RunSafe(m, Step(m.tb, c), n - 1);
    }
  }

  lemma PathInRange(m: Machine, c: Config)
    requires Safe(m, c)
    ensures NeverStuck(m.tb, c)
  {
    if c.stack != [] {
      var form :| StackOf(m, c.stack, form);
      forall k | 0 <= k < |c.stack| ensures c.stack[k].stateno < m.tb.nstate {
        StatesInRange(m, c.stack, form, k);
      }
    }
  }

  /** The parser object may be called with any token: no turn of the call can go wrong. */
  lemma CallIsSafe(m: Machine, p: Parser, token: nat, limit: nat)
    requires Usable(m) && p.Valid() && p.tb == m.tb && Safe(m, p.State()) && token < m.g.nterminal
    ensures forall n: nat | n <= limit :: NeverStuck(p.tb, Run(p.tb, Begin(p.State(), token), n))
    ensures Safe(m, Run(p.tb, Begin(p.State(), token), limit))
  {
    hide Usable, Safe, NeverStuck, Run;
    BeginSafe(m, p.State(), token);
    forall n: nat | n <= limit ensures NeverStuck(p.tb, Run(p.tb, Begin(p.State(), token), n)) {
      RunSafe(m, Begin(p.State(), token), n);
    }
    RunSafe(m, Begin(p.State(), token), limit);
  }

  /** Every configuration that any sequence of calls can reach is safe. */
  lemma {:induction false} SessionSafe(m: Machine, c: Config, tokens: seq<nat>, limit: nat)
    requires Usable(m) && Safe(m, c) && Terminals(m.g, tokens)
    ensures TablesUsable(m.tb) && Safe(m, Session(m.tb, c, tokens, limit))
    decreases |tokens|
  {
    hide Usable, Run, Safe;
    MachineUsable(m);
    if tokens != [] && !Running(m.tb, c) {
      BeginSafe(m, c, tokens[0]);
      RunSafe(m, Begin(c, tokens[0]), limit);
      SessionSafe(m, Run(m.tb, Begin(c, tokens[0]), limit), tokens[1..], limit);
    }
  }

  // ----- What a log says -----

  /** The tokens shifted, in order. */
  function Toks(log: seq<Event>): seq<nat> {
    if log == [] then []
    else
      var e := log[|log| - 1];
      Toks(log[..|log| - 1]) + if e.Shifted? then [e.token] else []
  }

  /** The rules reduced by, the last one first. */
  function Reds(log: seq<Event>): seq<nat> {
    if log == [] then []
    else
      var e := log[|log| - 1];
      (if e.Reduced? then [e.rule] else []) + Reds(log[..|log| - 1])
  }

  /** No syntax error and no overflow. */
  predicate Clean(log: seq<Event>) {
    forall i | 0 <= i < |log| :: !log[i].Errored? && !log[i].Overflowed?
  }

  lemma LogAppend(log: seq<Event>, e: Event)
    ensures Toks(log + [e]) == Toks(log) + if e.Shifted? then [e.token] else []
    ensures Reds(log + [e]) == (if e.Reduced? then [e.rule] else []) + Reds(log)
    ensures Clean(log + [e]) <==> Clean(log) && !e.Errored? && !e.Overflowed?
  {
    assert (log + [e])[..|log|] == log;
    assert (log + [e])[|log|] == e;
    if Clean(log + [e]) {
      forall i | 0 <= i < |log| ensures !log[i].Errored? && !log[i].Overflowed? {
        assert (log + [e])[i] == log[i];
      }
    }
  }

  ghost predicate ReadAllAs(g: Grammar, w: seq<nat>, u: seq<nat>) {
    |w| == |u| && forall i | 0 <= i < |w| :: ReadAs(g, w[i], u[i])
  }

  // ----- Soundness -----

  /** The reductions so far, backwards, derive the tokens shifted so far, as they were read,
      from `form`. */
  ghost predicate Explains(g: Grammar, log: seq<Event>, form: seq<nat>, u: seq<nat>) {
    ReadAllAs(g, Toks(log), u) && Terminals(g, u) && Rightmost(g, form, Reds(log), u)
  }

  ghost predicate OpenTrace(m: Machine, c: Config) {
    Accepted !in c.log && exists form, u :: StackOf(m, c.stack, form) && Explains(m.g, c.log, form, u)
  }

  ghost predicate AcceptedTrace(m: Machine, c: Config) {
    c.log != [] && c.log[|c.log| - 1] == Accepted && exists u :: Explains(m.g, c.log, [m.g.start], u)
  }

  /** As long as there was no error and no overflow: what is on the stack derives what was
      shifted, and after an accept the start symbol does. */
  ghost predicate Traced(m: Machine, c: Config) {
    Clean(c.log) ==> if c.stack != [] then OpenTrace(m, c) else c.log == [] || AcceptedTrace(m, c)
  }

  lemma ShiftExplains(g: Grammar, log: seq<Event>, form: seq<nat>, u: seq<nat>, t: nat, x: nat)
    requires Explains(g, log, form, u) && ReadAs(g, t, x) && x < g.nterminal
    ensures Explains(g, log + [Shifted(t)], form + [x], u + [x])
  {
    hide ReadAs, Rightmost;
    LogAppend(log, Shifted(t));
    assert Reds(log + [Shifted(t)]) == Reds(log);
    RightmostBeforeTerminals(g, form, Reds(log), u, [x]);
  }

  lemma ReduceExplains(g: Grammar, log: seq<Event>, form: seq<nat>, u: seq<nat>, r: nat)
    requires Explains(g, log, form, u) && r < |g.rules| && |g.rules[r].rhs| <= |form|
    requires SpellsAll(g.rules[r].rhs, form[|form| - |g.rules[r].rhs|..])
    ensures Explains(g, log + [Reduced(r)], form[..|form| - |g.rules[r].rhs|] + [g.rules[r].lhs], u)
  {
    hide ReadAs, Rightmost;
    LogAppend(log, Reduced(r));
    assert Toks(log + [Reduced(r)]) == Toks(log);
    ReduceExtends(g, form, r, Reds(log), u);
  }

  lemma AcceptExplains(g: Grammar, log: seq<Event>, form: seq<nat>, u: seq<nat>)
    requires Explains(g, log, form, u)
    ensures Explains(g, log + [Accepted], form, u)
  {
    hide ReadAs, Rightmost;
    LogAppend(log, Accepted);
    assert Toks(log + [Accepted]) == Toks(log) && Reds(log + [Accepted]) == Reds(log);
  }

  lemma ShiftTraced(m: Machine, c: Config, form: seq<nat>, u: seq<nat>, x: nat, d: Config, s2: nat)
    requires StackOf(m, c.stack, form) && Explains(m.g, c.log, form, u) && Accepted !in c.log
    requires ReadAs(m.g, c.major, x) && x < m.g.nterminal && Moves(m, Top(c.stack).stateno, x, s2)
    requires d.stack == Push(m.tb, c.stack, Entry(s2, c.major))
    requires d.log == c.log + [Shifted(c.major)] + if d.stack == [] then [Overflowed] else []
    ensures Traced(m, d)
  {
    hide StackOf, Moves, ReadAs, Explains;
    PushIsPath(m, c.stack, form, Entry(s2, c.major), x);
    ShiftExplains(m.g, c.log, form, u, c.major, x);
    if d.stack == [] {
      LogAppend(c.log + [Shifted(c.major)], Overflowed);
    } else {
      assert d.log == c.log + [Shifted(c.major)];
    }
  }

  lemma ReduceTraced(m: Machine, c: Config, form: seq<nat>, u: seq<nat>, r: nat)
    requires Usable(m) && StackOf(m, c.stack, form) && Explains(m.g, c.log, form, u) && Accepted !in c.log
    requires r < |m.g.rules| && ItemAt(m, c.stack, |c.stack| - 1, Item(r, |m.g.rules[r].rhs|))
    ensures WfTables(m.tb) && r < m.tb.nrule && Traced(m, ReduceStep(m.tb, c, r))
  {
    hide Usable, StackOf, Moves, ReduceStep, SpellsAll, Explains;
    ReduceShape(m, c, form, r);
    FormLength(m, c.stack, form);
    var n, lhs, log := |m.g.rules[r].rhs|, m.g.rules[r].lhs, c.log + [Reduced(r)];
    ReduceExplains(m.g, c.log, form, u, r);
    if lhs == m.g.start {
      assert form[..0] + [lhs] == [m.g.start];
      AcceptExplains(m.g, log, [m.g.start], u);
    } else {
      var below := c.stack[..|c.stack| - n];
      var e := GotoDecision(m, Top(below).stateno, lhs);
      ReadDirectly(m.g, lhs, lhs);
      PushIsPath(m, below, form[..|form| - n], Entry(m.num[e.target], lhs), lhs);
      LogAppend(log, Overflowed);
    }
  }

  lemma StepTraced(m: Machine, c: Config)
    requires Usable(m) && Safe(m, c) && c.stack != [] && c.major < m.g.nterminal && Traced(m, c)
    ensures TablesUsable(m.tb) && Traced(m, Step(m.tb, c))
  {
    hide Usable, StackOf, Moves, ErrorStep, ReduceStep, Step, Explains, ReadAs;
    var form, u := [], [];
    if Clean(c.log) {
      form, u :| StackOf(m, c.stack, form) && Explains(m.g, c.log, form, u);
    } else {
      form :| StackOf(m, c.stack, form);
    }
    StepShape(m, c, form);
    var e := ShiftDecision(m, Top(c.stack).stateno, c.major);
    if !Clean(c.log) {
      StepKeepsLog(m.tb, c);
      StaysUnclean(c.log, Step(m.tb, c).log);
    } else if e.kind == Shift {
      var x: nat :| ReadAs(m.g, c.major, x) && 0 < x < m.g.nterminal
        && Moves(m, Top(c.stack).stateno, x, m.num[e.target]);
      ShiftTraced(m, c, form, u, x, Step(m.tb, c), m.num[e.target]);
    } else if e.kind == Reduce {
      ReduceTraced(m, c, form, u, e.target);
    } else {
      ErrorLogged(m.tb, c);
    }
  }

  lemma StepKeepsLog(tb: Tables, c: Config)
    requires TablesUsable(tb) && c.stack != []
    ensures c.log <= Step(tb, c).log
  {
    hide PopToError, FindShiftAction, FindReduceAction;
  }

  lemma StaysUnclean(log: seq<Event>, longer: seq<Event>)
    requires log <= longer && !Clean(log)
    ensures !Clean(longer)
  {
    var i :| 0 <= i < |log| && (log[i].Errored? || log[i].Overflowed?);
    assert longer[i] == log[i];
  }

  lemma ErrorLogged(tb: Tables, c: Config)
    requires WfTables(tb) && c.stack != []
    ensures !Clean(ErrorStep(tb, c).log)
  {
    hide PopToError, FindReduceAction;
    assert ErrorStep(tb, c).log[|c.log|] == Errored(c.major, c.errcnt < 0);
  }

  lemma {:induction false} RunKeepsLog(tb: Tables, c: Config, n: nat)
    requires TablesUsable(tb)
    ensures c.log <= Run(tb, c, n).log
    decreases n
  {
    hide Step;
    if n > 0 && Running(tb, c) {
      StepKeepsLog(tb, c);
      RunKeepsLog(tb, Step(tb, c), n - 1);
    }
  }

  lemma ErrorIsLogged(tb: Tables, c: Config)
    requires WfTables(tb) && c.stack != []
    ensures c.log + [Errored(c.major, c.errcnt < 0)] <= ErrorStep(tb, c).log
  {
    hide PopToError, FindReduceAction;
  }

  lemma BeginTraced(m: Machine, c: Config, token: nat)
    requires Usable(m) && Safe(m, c) && token < m.g.nterminal && Traced(m, c)
    ensures Traced(m, Begin(c, token))
  {
    hide Usable, Moves, ReadAs;
    MachineUsable(m);
    if c.stack == [] {
      assert StackOf(m, [Entry(0, 0)], []) && Explains(m.g, [], [], []);
    }
  }

  lemma {:induction false} RunTraced(m: Machine, c: Config, n: nat)
    requires Usable(m) && Safe(m, c) && Traced(m, c)
    ensures TablesUsable(m.tb) && Traced(m, Run(m.tb, c, n))
    decreases n
  {
    hide Usable, Step, IsPath, Traced;
    MachineUsable(m);
    if n > 0 && Running(m.tb, c) {
      StepSafe(m, c);
      StepTraced(m, c);
      RunTraced(m, Step(m.tb, c), n - 1);
    }
  }

  lemma {:induction false} SessionTraced(m: Machine, c: Config, tokens: seq<nat>, limit: nat)
    requires Usable(m) && Safe(m, c) && Traced(m, c) && Terminals(m.g, tokens)
    ensures TablesUsable(m.tb) && Traced(m, Session(m.tb, c, tokens, limit))
    decreases |tokens|
  {
    hide Usable, Run, Safe, Traced;
    MachineUsable(m);
    if tokens != [] && !Running(m.tb, c) {
      BeginSafe(m, c, tokens[0]);
      BeginTraced(m, c, tokens[0]);
      RunSafe(m, Begin(c, tokens[0]), limit);
      RunTraced(m, Begin(c, tokens[0]), limit);
      SessionTraced(m, Run(m.tb, Begin(c, tokens[0]), limit), tokens[1..], limit);
    }
  }

  lemma IdleIsSafe(m: Machine)
    requires Usable(m)
    ensures Safe(m, Idle(m.tb)) && Traced(m, Idle(m.tb))
  {
  }

  /** Soundness.  Whenever an accept is reached without a syntax error or overflow since the stack
      was initialised, the tokens shifted, each read as itself, its fallback or the wildcard, are
      a sentence, and the reductions performed are, backwards, a rightmost derivation of it. */
  lemma AcceptIsSound(m: Machine, tokens: seq<nat>, limit: nat)
    requires Usable(m) && Terminals(m.g, tokens) && TablesUsable(m.tb)
    requires var c := Session(m.tb, Idle(m.tb), tokens, limit); Clean(c.log) && Accepted in c.log
    ensures var c := Session(m.tb, Idle(m.tb), tokens, limit);
      exists u :: ReadAllAs(m.g, Toks(c.log), u) && Rightmost(m.g, [m.g.start], Reds(c.log), u) && Sentence(m.g, u)
  {
    hide Usable, Session, Safe, ReadAs, Rightmost;
    IdleIsSafe(m);
    SessionTraced(m, Idle(m.tb), tokens, limit);
    var c := Session(m.tb, Idle(m.tb), tokens, limit);
    assert AcceptedTrace(m, c);
    var u :| Explains(m.g, c.log, [m.g.start], u);
    MachineIsWf(m);
    SentenceIffDerived(m.g, u);
    assert ReadAllAs(m.g, Toks(c.log), u) && Rightmost(m.g, [m.g.start], Reds(c.log), u);
  }

  lemma ReadAllSelf(g: Grammar, w: seq<nat>, u: seq<nat>)
    requires NoSubstitutes(g) && ReadAllAs(g, w, u)
    ensures w == u
  {
    forall i | 0 <= i < |w| ensures w[i] == u[i] {
      ReadAsSelf(g, w[i], u[i]);
    }
  }

  /** Without fallbacks and a wildcard it is the shifted tokens themselves that are derived. */
  lemma AcceptIsExactlySound(m: Machine, tokens: seq<nat>, limit: nat)
    requires Usable(m) && Terminals(m.g, tokens) && TablesUsable(m.tb) && NoSubstitutes(m.g)
    requires var c := Session(m.tb, Idle(m.tb), tokens, limit); Clean(c.log) && Accepted in c.log
    ensures var c := Session(m.tb, Idle(m.tb), tokens, limit);
      Sentence(m.g, Toks(c.log)) && Rightmost(m.g, [m.g.start], Reds(c.log), Toks(c.log))
  {
    hide Usable, Session, ReadAllAs, Rightmost;
    AcceptIsSound(m, tokens, limit);
    var c := Session(m.tb, Idle(m.tb), tokens, limit);
    var u :| ReadAllAs(m.g, Toks(c.log), u) && Rightmost(m.g, [m.g.start], Reds(c.log), u) && Sentence(m.g, u);
    ReadAllSelf(m.g, Toks(c.log), u);
  }
}
