/** When a syntax error is reported to the user and when it is passed over in silence. */
module ErrorReports {
  import opened Grammars
  import opened ParserTables
  import opened Driver

  /** The number of tokens shifted since the latest syntax error, if there was one. */
  function Since(log: seq<Event>): Option<nat> {
    if log == [] then None
    else
      var e, before := log[|log| - 1], Since(log[..|log| - 1]);
      if e.Errored? then Some(0)
      else if e.Shifted? && before.Some? then Some(before.value + 1)
      else before
  }

  /** No error since the stack was initialised, or four tokens shifted since the latest one. */
  predicate Recovered(log: seq<Event>) {
    Since(log).None? || Since(log).value >= 4
  }

  ghost predicate ReportsOk(log: seq<Event>) {
    forall i | 0 <= i < |log| && log[i].Errored? :: log[i].reported <==> Recovered(log[..i])
  }

  /** The counter of the parser says how far the recovery has got. */
  ghost predicate Counted(c: Config) {
    && ReportsOk(c.log)
    && (c.stack != [] ==>
          && (Since(c.log).None? ==> c.errcnt < 0)
          && (Since(c.log).Some? ==> c.errcnt == 3 - Since(c.log).value))
  }

  lemma Append(log: seq<Event>, e: Event)
    ensures Since(log + [e]) ==
      if e.Errored? then Some(0) else if e.Shifted? && Since(log).Some? then Some(Since(log).value + 1) else Since(log)
    ensures ReportsOk(log + [e]) <==> ReportsOk(log) && (e.Errored? ==> (e.reported <==> Recovered(log)))
  {
    hide Recovered, ReportsOk;
    var longer := log + [e];
    assert longer[..|longer| - 1] == log && longer[|longer| - 1] == e;
    AppendReports(log, e);
  }

  lemma AppendReports(log: seq<Event>, e: Event)
    ensures ReportsOk(log + [e]) <==> ReportsOk(log) && (e.Errored? ==> (e.reported <==> Recovered(log)))
  {
    hide Recovered;
    var longer := log + [e];
    assert longer[..|log|] == log;
    forall i | 0 <= i < |log| ensures longer[i] == log[i] && longer[..i] == log[..i] {}
    assert forall i | 0 <= i < |longer| :: longer[i] == if i < |log| then log[i] else e;
  }

  lemma AppendTwo(log: seq<Event>, e: Event, e2: Event)
    requires ReportsOk(log) && (e.Errored? ==> (e.reported <==> Recovered(log))) && !e2.Errored? && !e2.Shifted?
    ensures ReportsOk(log + [e, e2]) && Since(log + [e, e2]) == Since(log + [e])
  {
    hide Since, ReportsOk;
    Append(log, e);
    Append(log + [e], e2);
    assert log + [e, e2] == log + [e] + [e2];
  }

  lemma ErrorCounted(tb: Tables, c: Config)
    requires WfTables(tb) && c.stack != [] && Counted(c)
    ensures Counted(ErrorStep(tb, c))
  {
    hide Since, ReportsOk, PopToError, FindReduceAction;
    var d := ErrorStep(tb, c);
    var e := Errored(c.major, c.errcnt < 0);
    assert e.reported <==> Recovered(c.log);
    Append(c.log, e);
    var tail := d.log[|c.log| + 1..];
    AppendTwo(c.log, e, tail[0]);
    if |tail| == 2 {
      assert d.log == c.log + [e, tail[0]] + [tail[1]];
      Append(c.log + [e, tail[0]], tail[1]);
    } else {
      assert d.log == c.log + [e, tail[0]];
    }
  }

  lemma ReduceCounted(tb: Tables, c: Config, r: nat)
    requires WfTables(tb) && r < tb.nrule && c.stack != [] && Counted(c)
    ensures Counted(ReduceStep(tb, c, r))
  {
    hide Since, ReportsOk, FindReduceAction;
    var d := ReduceStep(tb, c, r);
    var tail := d.log[|c.log|..];
    Append(c.log, tail[0]);
    if |tail| == 2 {
      AppendTwo(c.log, tail[0], tail[1]);
      assert d.log == c.log + [tail[0], tail[1]];
    } else {
      assert d.log == c.log + [tail[0]];
    }
  }

  lemma StepCounted(tb: Tables, c: Config)
    requires TablesUsable(tb) && c.stack != [] && Counted(c)
    ensures Counted(Step(tb, c))
  {
    hide Since, ReportsOk, ErrorStep, ReduceStep, FindShiftAction;
    var act := LookupShift(tb, c.stack, c.major);
    if act < 0 {
      Append(c.log, Stuck);
    } else if act < tb.nstate {
      Append(c.log, Shifted(c.major));
      AppendTwo(c.log, Shifted(c.major), Overflowed);
      assert c.log + [Shifted(c.major)] + [Overflowed] == c.log + [Shifted(c.major), Overflowed];
      assert c.log + [Shifted(c.major)] + [] == c.log + [Shifted(c.major)];
    } else if act < tb.nstate + tb.nrule {
      ReduceCounted(tb, c, act - tb.nstate);
    } else if act == tb.ErrorCode() {
      ErrorCounted(tb, c);
    } else {
      Append(c.log, Accepted);
    }
  }

  lemma {:induction false} RunCounted(tb: Tables, c: Config, n: nat)
    requires TablesUsable(tb) && Counted(c)
    ensures Counted(Run(tb, c, n))
    decreases n
  {
    hide Step, Counted;
    if n > 0 && Running(tb, c) {
      StepCounted(tb, c);
      RunCounted(tb, Step(tb, c), n - 1);
    }
  }

  /** In every sequence of calls a syntax error is reported if and only if it is the first since
      the stack was initialised or at least four tokens were shifted since the one before. */
  lemma {:induction false} ReportedIffRecovered(tb: Tables, c: Config, tokens: seq<nat>, limit: nat)
    requires TablesUsable(tb) && Counted(c)
    ensures Counted(Session(tb, c, tokens, limit))
    ensures Counted(Idle(tb))
    decreases |tokens|
  {
    hide Run;
    if tokens != [] && !Running(tb, c) {
      var b := Begin(c, tokens[0]);
      RunCounted(tb, b, limit);
      ReportedIffRecovered(tb, Run(tb, b, limit), tokens[1..], limit);
    }
  }
}
