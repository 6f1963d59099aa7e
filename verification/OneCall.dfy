/** What a single call with one token can do, and how the tokens shifted relate to the tokens
    supplied. */
module OneCall {
  import opened Grammars
  import opened Automata
  import opened ParserTables
  import opened Driver
  import opened Machines
  import opened StackInvariants
  import opened Steps
  import opened Soundness

  /** All token events of the call are about its own token. */
  ghost predicate OwnToken(s: seq<Event>, token: nat) {
    forall i | 0 <= i < |s| :: match s[i]
      case Shifted(t) => t == token
      case Errored(t, _) => t == token
      case Discarded(t) => t == token
      case _ => true
  }

  ghost function Times(s: seq<Event>, e: Event): nat {
    multiset(s)[e]
  }

  /** How often the error branch was taken, with or without a report. */
  ghost function Errors(s: seq<Event>, token: nat): nat {
    Times(s, Errored(token, true)) + Times(s, Errored(token, false))
  }

  /** The events `s` of a call so far.  While the token is pending it was neither shifted nor
      discarded, and the error branch was taken once if the error flag is set and never
      otherwise.  When the call is over the error branch was taken at most twice, and the token
      was shifted exactly once, or discarded exactly once, or the stack is empty.  It is discarded
      only after an error. */
  ghost predicate CallOk(tb: Tables, token: nat, s: seq<Event>, c: Config) {
    && OwnToken(s, token)
    && (token == 0 ==> Times(s, Shifted(0)) == 0)
    && Times(s, Shifted(token)) + Times(s, Discarded(token)) <= 1
    && Times(s, Discarded(token)) <= Errors(s, token)
    && c.endofinput == (token == 0)
    && (Running(tb, c) ==>
          && c.major == token
          && Times(s, Shifted(token)) == 0 && Times(s, Discarded(token)) == 0
          && Errors(s, token) == (if c.errorhit then 1 else 0))
    && (!Running(tb, c) ==>
          && Errors(s, token) <= 2
          && (Times(s, Shifted(token)) == 1 || Times(s, Discarded(token)) == 1 || c.stack == [])
          && (Times(s, Shifted(token)) == 1 && c.stack == [] ==> Times(s, Overflowed) > 0))
  }

  lemma MoreEvents(s: seq<Event>, more: seq<Event>, token: nat)
    ensures OwnToken(s + more, token) <==> OwnToken(s, token) && OwnToken(more, token)
    ensures forall e :: Times(s + more, e) == Times(s, e) + Times(more, e)
    ensures Errors(s + more, token) == Errors(s, token) + Errors(more, token)
  {
    if OwnToken(s + more, token) {
      forall i | 0 <= i < |s| ensures (s + more)[i] == s[i] {}
      forall i | 0 <= i < |more| ensures (s + more)[|s| + i] == more[i] {}
    }
  }

  lemma ShiftCall(tb: Tables, token: nat, s: seq<Event>, c: Config, d: Config)
    requires CallOk(tb, token, s, c) && Running(tb, c) && token > 0
    requires d.endofinput == c.endofinput && d.major == tb.NoCode()
    ensures CallOk(tb, token, s + [Shifted(token)] + if d.stack == [] then [Overflowed] else [], d)
  {
    MoreEvents(s, [Shifted(token)], token);
    MoreEvents(s + [Shifted(token)], if d.stack == [] then [Overflowed] else [], token);
    assert multiset([Shifted(token)]) == multiset{Shifted(token)} && multiset([Overflowed]) == multiset{Overflowed};
  }

  lemma ReduceCall(tb: Tables, token: nat, s: seq<Event>, c: Config, d: Config, r: nat, more: seq<Event>)
    requires CallOk(tb, token, s, c) && Running(tb, c) && token != tb.NoCode()
    requires d.endofinput == c.endofinput && d.major == c.major && d.errorhit == c.errorhit
    requires more in {[Reduced(r)], [Reduced(r), Accepted], [Reduced(r), Overflowed]}
    ensures CallOk(tb, token, s + more, d)
  {
    MoreEvents(s, more, token);
    assert multiset(more) in {multiset{Reduced(r)}, multiset{Reduced(r), Accepted}, multiset{Reduced(r), Overflowed}};
  }

  lemma ErrorCall(tb: Tables, token: nat, s: seq<Event>, c: Config, d: Config, more: seq<Event>)
    requires CallOk(tb, token, s, c) && Running(tb, c)
    requires d.endofinput == c.endofinput && d.errorhit
    requires
      || (more == [Errored(token, c.errcnt < 0), Discarded(token)] && d.major == tb.NoCode())
      || (more == [Errored(token, c.errcnt < 0), Discarded(token), Failed] && d.major == tb.NoCode() && d.stack == [])
      || (more == [Errored(token, c.errcnt < 0), Overflowed] && !c.errorhit && d.stack == [])
      || (more == [Errored(token, c.errcnt < 0), ErrorShifted] && !c.errorhit && d.major == token && d.stack != [])
    ensures CallOk(tb, token, s + more, d)
  {
    hide Times, Errors, OwnToken;
    MoreEvents(s, more, token);
    ErrorTimes(more, token, c.errcnt < 0);
  }

  lemma ErrorTimes(more: seq<Event>, token: nat, reported: bool)
    requires more in {[Errored(token, reported), Discarded(token)],
                      [Errored(token, reported), Discarded(token), Failed],
                      [Errored(token, reported), Overflowed], [Errored(token, reported), ErrorShifted]}
    ensures OwnToken(more, token)
    ensures Errors(more, token) == 1 && Times(more, Shifted(token)) == 0 && Times(more, Shifted(0)) == 0
    ensures Times(more, Discarded(token)) == if more[1] == Discarded(token) then 1 else 0
  {
    hide Times;
    forall e ensures Times(more, e) ==
      (if more[0] == e then 1 else 0) + (if more[1] == e then 1 else 0) + (if |more| == 3 && more[2] == e then 1 else 0)
    {
      TimesOfFew(more, e);
    }
  }

  lemma TimesOfFew(s: seq<Event>, e: Event)
    requires |s| == 2 || |s| == 3
    ensures var third := if |s| == 3 && s[2] == e then 1 else 0;
            Times(s, e) == (if s[0] == e then 1 else 0) + (if s[1] == e then 1 else 0) + third
  {
    if |s| == 3 {
      assert s == [s[0], s[1], s[2]];
    } else {
      assert s == [s[0], s[1]];
    }
  }

  lemma ShiftEvents(m: Machine, c: Config, form: seq<nat>, token: nat, s: seq<Event>) returns (more: seq<Event>)
    requires Usable(m) && StackOf(m, c.stack, form) && token < m.g.nterminal && CallOk(m.tb, token, s, c)
    requires Running(m.tb, c)
    requires ShiftDecision(m, Top(c.stack).stateno, c.major).kind == Shift
    ensures TablesUsable(m.tb)
    ensures Step(m.tb, c).log == c.log + more && CallOk(m.tb, token, s + more, Step(m.tb, c))
  {
    hide Usable, StackOf, Step, Moves, ReadAs, ErrorStep, ReduceStep, OwnToken, Times, Errors;
    StepShape(m, c, form);
    var d := Step(m.tb, c);
    var last := if d.stack == [] then [Overflowed] else [];
    ShiftCall(m.tb, token, s, c, d);
    more := [Shifted(token)] + last;
    assert s + more == s + [Shifted(token)] + last;
  }

  lemma ReduceEvents(m: Machine, c: Config, form: seq<nat>, token: nat, s: seq<Event>) returns (more: seq<Event>)
    requires Usable(m) && StackOf(m, c.stack, form) && token < m.g.nterminal && CallOk(m.tb, token, s, c)
    requires Running(m.tb, c)
    requires ShiftDecision(m, Top(c.stack).stateno, c.major).kind == Reduce
    ensures TablesUsable(m.tb)
    ensures Step(m.tb, c).log == c.log + more && CallOk(m.tb, token, s + more, Step(m.tb, c))
  {
    hide Usable, StackOf, Step, Moves, ReadAs, ErrorStep, ReduceStep, OwnToken, Times, Errors, SpellsAll;
    StepShape(m, c, form);
    MachineUsable(m);
    MachineIsWf(m);
    FormLength(m, c.stack, form);
    var r := ShiftDecision(m, Top(c.stack).stateno, c.major).target;
    ReduceShape(m, c, form, r);
    ReduceKeeps(m.tb, c, r);
    var d := Step(m.tb, c);
    more := if d.stack != [] then [Reduced(r)]
            else if m.g.rules[r].lhs == m.g.start then [Reduced(r), Accepted]
            else [Reduced(r), Overflowed];
    assert d.log == c.log + more;
    ReduceCall(m.tb, token, s, c, d, r, more);
  }

  lemma ErrorEvents(m: Machine, c: Config, form: seq<nat>, token: nat, s: seq<Event>) returns (more: seq<Event>)
    requires Usable(m) && StackOf(m, c.stack, form) && token < m.g.nterminal && CallOk(m.tb, token, s, c)
    requires Running(m.tb, c)
    ensures TablesUsable(m.tb)
    ensures ErrorStep(m.tb, c).log == c.log + more && CallOk(m.tb, token, s + more, ErrorStep(m.tb, c))
  {
    hide Usable, StackOf, Moves, ErrorStep, PopToError, OwnToken, Times, Errors;
    MachineUsable(m);
    FormLength(m, c.stack, form);
    ErrorShape(m, c, form);
    var d := ErrorStep(m.tb, c);
    more := d.log[|c.log|..];
    assert d.log == c.log + more;
    ErrorCall(m.tb, token, s, c, d, more);
  }

  lemma StepEvents(m: Machine, c: Config, token: nat, s: seq<Event>) returns (more: seq<Event>)
    requires Usable(m) && Safe(m, c) && token < m.g.nterminal && CallOk(m.tb, token, s, c) && Running(m.tb, c)
    ensures TablesUsable(m.tb)
    ensures Step(m.tb, c).log == c.log + more && CallOk(m.tb, token, s + more, Step(m.tb, c))
  {
    hide Usable, StackOf, Step, Moves, ReadAs, ErrorStep, ReduceStep, OwnToken, Times, Errors;
    var form :| StackOf(m, c.stack, form);
    StepShape(m, c, form);
    var e := ShiftDecision(m, Top(c.stack).stateno, c.major);
    if e.kind == Shift {
      more := ShiftEvents(m, c, form, token, s);
    } else if e.kind == Reduce {
      more := ReduceEvents(m, c, form, token, s);
    } else {
      more := ErrorEvents(m, c, form, token, s);
    }
  }

  lemma {:induction false} RunEvents(m: Machine, c: Config, token: nat, s: seq<Event>, n: nat)
    returns (more: seq<Event>)
    requires Usable(m) && Safe(m, c) && token < m.g.nterminal && CallOk(m.tb, token, s, c)
    ensures TablesUsable(m.tb)
    ensures Run(m.tb, c, n).log == c.log + more && CallOk(m.tb, token, s + more, Run(m.tb, c, n))
    decreases n
  {
    hide Usable, Safe, Step, CallOk;
    MachineUsable(m);
    more := [];
    assert s + more == s && c.log + more == c.log;
    if n > 0 && Running(m.tb, c) {
      CallPending(m.tb, token, s, c);
      more := StepEvents(m, c, token, s);
      StepSafe(m, c);
      var rest := RunEvents(m, Step(m.tb, c), token, s + more, n - 1);
      assert s + more + rest == s + (more + rest);
      more := more + rest;
    }
  }

  lemma CallPending(tb: Tables, token: nat, s: seq<Event>, c: Config)
    requires CallOk(tb, token, s, c) && Running(tb, c)
    ensures c.major == token && c.stack != []
  {
  }

  /** One call, from whatever state the previous calls left, after any number of turns. */
  lemma OneCallOk(m: Machine, c: Config, token: nat, n: nat) returns (s: seq<Event>)
    requires Usable(m) && Safe(m, c) && token < m.g.nterminal
    ensures TablesUsable(m.tb)
    ensures Run(m.tb, Begin(c, token), n).log == Begin(c, token).log + s
    ensures CallOk(m.tb, token, s, Run(m.tb, Begin(c, token), n))
  {
    hide Usable, Safe;
    MachineUsable(m);
    MachineIsWf(m);
    BeginSafe(m, c, token);
    s := RunEvents(m, Begin(c, token), token, [], n);
    assert [] + s == s;
  }

  // ----- Tokens supplied and tokens shifted -----

  lemma {:induction false} SessionSnoc(tb: Tables, c: Config, tokens: seq<nat>, t: nat, limit: nat)
    requires TablesUsable(tb)
    ensures var d := Session(tb, c, tokens, limit);
      Session(tb, c, tokens + [t], limit) == if Running(tb, d) then d else Run(tb, Begin(d, t), limit)
    decreases |tokens|
  {
    hide Run, Running, Begin;
    if tokens == [] {
      assert tokens + [t] == [t] && [t][1..] == [];
    } else {
      assert (tokens + [t])[1..] == tokens[1..] + [t];
      if !Running(tb, c) {
        SessionSnoc(tb, Run(tb, Begin(c, tokens[0]), limit), tokens[1..], t, limit);
      }
    }
  }

  lemma {:induction false} ToksConcat(log: seq<Event>, s: seq<Event>)
    ensures Toks(log + s) == Toks(log) + Toks(s)
    ensures Clean(log + s) ==> Clean(log) && Clean(s)
    decreases |s|
  {
    if s == [] {
      assert log + s == log;
    } else {
      var n := |s| - 1;
      assert log + s == (log + s[..n]) + [s[n]] && s == s[..n] + [s[n]];
      LogAppend(log + s[..n], s[n]);
      LogAppend(s[..n], s[n]);
      ToksConcat(log, s[..n]);
    }
  }

  lemma {:induction false} ToksOfCall(s: seq<Event>, token: nat)
    requires OwnToken(s, token) && Times(s, Shifted(token)) <= 1
    ensures Toks(s) == if Times(s, Shifted(token)) == 1 then [token] else []
  {
    if s != [] {
      var n := |s| - 1;
      assert s == s[..n] + [s[n]];
      MoreEvents(s[..n], [s[n]], token);
      assert Times([s[n]], Shifted(token)) == if s[n] == Shifted(token) then 1 else 0;
      ToksOfCall(s[..n], token);
    }
  }

  lemma CleanCall(tb: Tables, token: nat, s: seq<Event>, c: Config)
    requires CallOk(tb, token, s, c) && Clean(s) && !Running(tb, c)
    ensures Toks(s) == if c.stack != [] then [token] else []
  {
    ToksOfCall(s, token);
    TimesPositive(s, Errored(token, true));
    TimesPositive(s, Errored(token, false));
    TimesPositive(s, Overflowed);
  }

  lemma TimesPositive(s: seq<Event>, e: Event)
    ensures Times(s, e) > 0 ==> e in s
  {
    assert Times(s, e) > 0 <==> e in multiset(s);
  }

  /** After every call but the last the stack was in use: the parser was never initialised anew. */
  ghost predicate NeverEmptied(tb: Tables, tokens: seq<nat>, limit: nat)
    requires TablesUsable(tb)
  {
    forall k | 0 < k < |tokens| :: Session(tb, Idle(tb), tokens[..k], limit).stack != []
  }

  /** As long as there is no error the tokens shifted are exactly the tokens supplied; when the
      parser has just accepted, the token of the last call was only looked at. */
  lemma {:induction false} ShiftedAreSupplied(m: Machine, tokens: seq<nat>, limit: nat)
    requires Usable(m) && Terminals(m.g, tokens) && TablesUsable(m.tb) && tokens != []
    requires NeverEmptied(m.tb, tokens, limit)
    requires var c := Session(m.tb, Idle(m.tb), tokens, limit); Clean(c.log) && !Running(m.tb, c)
    ensures var c := Session(m.tb, Idle(m.tb), tokens, limit);
      Toks(c.log) == if c.stack != [] then tokens else tokens[..|tokens| - 1]
    decreases |tokens|
  {
    hide Usable, Session, Run, Safe, CallOk;
    var n := |tokens| - 1;
    var before, t := tokens[..n], tokens[n];
    var d := Session(m.tb, Idle(m.tb), before, limit);
    assert tokens == before + [t];
    SessionSnoc(m.tb, Idle(m.tb), before, t, limit);
    IdleIsSafe(m);
    SessionSafe(m, Idle(m.tb), before, limit);
    if !Running(m.tb, d) {
      var s := OneCallOk(m, d, t, limit);
      var c := Run(m.tb, Begin(d, t), limit);
      ToksConcat(Begin(d, t).log, s);
      CleanCall(m.tb, t, s, c);
      if before != [] {
        assert d.stack != [] by { assert tokens[..n] == before; }
        assert forall k | 0 < k < |before| :: before[..k] == tokens[..k];
        ShiftedAreSupplied(m, before, limit);
      } else {
        SessionOfNothing(m.tb, limit);
      }
    }
  }

  lemma SessionOfNothing(tb: Tables, limit: nat)
    requires TablesUsable(tb)
    ensures Session(tb, Idle(tb), [], limit) == Idle(tb)
  {
  }
}
