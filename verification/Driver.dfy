/** The parser that is driven by the tables: first its steps as functions on values, then the
    parser object, whose methods work in place on the stack array. */
module Driver {
  import opened Compression
  import opened ParserTables

  /** One level of the stack. */
  datatype Entry = Entry(stateno: nat, major: nat)

  /** What a step did.  An error says whether the user's error routine was called; `Stuck` stands
      for an access outside the stack or the tables. */
  datatype Event =
    | Shifted(token: nat)
    | Reduced(rule: nat)
    | Accepted
    | Overflowed
    | Errored(token: nat, reported: bool)
    | Discarded(token: nat)
    | ErrorShifted
    | Failed
    | Stuck

  /** The parser inside a call: the stack, the error counter, the pending token (`NoCode` once it
      is used up), whether this call met an error, whether its token was the end of input, and
      the events since the stack was last initialised. */
  datatype Config = Config(stack: seq<Entry>, errcnt: int, major: nat, errorhit: bool, endofinput: bool,
                           log: seq<Event>)

  ghost predicate TablesUsable(tb: Tables) {
    WfTables(tb) && tb.depth > 0 && forall t: nat :: ChainEnds(tb.fallback, t, |tb.fallback|)
  }

  function Top(st: seq<Entry>): Entry
    requires st != []
  {
    st[|st| - 1]
  }

  /** Push a level; a full stack is emptied instead. */
  function Push(tb: Tables, st: seq<Entry>, e: Entry): seq<Entry> {
    if |st| >= tb.depth then [] else st + [e]
  }

  function LookupShift(tb: Tables, st: seq<Entry>, major: nat): int
    requires TablesUsable(tb) && st != []
  {
    if Top(st).stateno < tb.nstate then FindShiftAction(tb, Top(st).stateno, major, |tb.fallback|) else -1
  }

  function LookupReduce(tb: Tables, st: seq<Entry>, major: nat): int
    requires WfTables(tb) && st != []
  {
    if Top(st).stateno < tb.nstate then FindReduceAction(tb, Top(st).stateno, major) else -1
  }

  /** Reduce by rule `r` and push its left-hand side, or accept. */
  function ReduceStep(tb: Tables, c: Config, r: nat): Config
    requires WfTables(tb) && r < tb.nrule
  {
    var size := tb.ruleInfo[r].nrhs;
    if size >= |c.stack| then c.(stack := [], log := c.log + [Stuck])
    else
      var below := c.stack[..|c.stack| - size];
      var lhs := tb.ruleInfo[r].lhs;
      var act := LookupReduce(tb, below, lhs);
      var log := c.log + [Reduced(r)];
      if act < 0 then c.(stack := [], log := log + [Stuck])
      else if act < tb.nstate then
        if size > 0 then c.(stack := below + [Entry(act, lhs)], log := log)
        else
          var st := Push(tb, below, Entry(act, lhs));
          c.(stack := st, log := if st == [] then log + [Overflowed] else log)
      else if act == tb.AcceptAction() then c.(stack := [], log := log + [Accepted])
      else c.(stack := below, log := log)
  }

  /** Pop until the state on top can shift the error symbol. */
  function PopToError(tb: Tables, st: seq<Entry>): seq<Entry>
    requires WfTables(tb)
    decreases |st|
  {
    if st == [] then []
    else if LookupReduce(tb, st, tb.errsym) >= tb.nstate then PopToError(tb, st[..|st| - 1])
    else st
  }

  function ErrorStep(tb: Tables, c: Config): Config
    requires WfTables(tb) && c.stack != []
  {
    var log := c.log + [Errored(c.major, c.errcnt < 0)];
    var after := c.(errcnt := 3, errorhit := true);
    if Top(c.stack).major == tb.errsym || c.errorhit then
      after.(major := tb.NoCode(), log := log + [Discarded(c.major)])
    else
      var st := PopToError(tb, c.stack);
      if st == [] || c.major == 0 then
        after.(stack := [], major := tb.NoCode(), log := log + [Discarded(c.major), Failed])
      else
        var act := LookupReduce(tb, st, tb.errsym);
        if act < 0 then after.(stack := [], log := log + [Stuck])
        else
          var pushed := Push(tb, st, Entry(act, tb.errsym));
          after.(stack := pushed, log := log + [if pushed == [] then Overflowed else ErrorShifted])
  }

  /** One turn of the parsing loop. */
  function Step(tb: Tables, c: Config): Config
    requires TablesUsable(tb) && c.stack != []
  {
    var act := LookupShift(tb, c.stack, c.major);
    if act < 0 then c.(stack := [], log := c.log + [Stuck])
    else if act < tb.nstate then
      var st := Push(tb, c.stack, Entry(act, c.major));
      c.(stack := st, errcnt := c.errcnt - 1,
         major := if c.endofinput && st != [] then 0 else tb.NoCode(),
         log := c.log + [Shifted(c.major)] + if st == [] then [Overflowed] else [])
    else if act < tb.nstate + tb.nrule then
      ReduceStep(tb, c, act - tb.nstate)
    else if act == tb.ErrorCode() then
      ErrorStep(tb, c)
    else
      c.(stack := [], major := tb.NoCode(), log := c.log + [Accepted])
  }

  /** The call goes on while its token is pending and the stack is in use. */
  predicate Running(tb: Tables, c: Config) {
    c.major != tb.NoCode() && c.stack != []
  }

  /** The beginning of a call with a token, on what the previous call left. */
  function Begin(c: Config, major: nat): Config {
    if c.stack == [] then Config([Entry(0, 0)], -1, major, false, major == 0, [])
    else c.(major := major, errorhit := false, endofinput := major == 0)
  }

  /** At most `n` turns. */
  function Run(tb: Tables, c: Config, n: nat): Config
    requires TablesUsable(tb)
    decreases n
  {
    if n == 0 || !Running(tb, c) then c else Run(tb, Step(tb, c), n - 1)
  }

  /** A parser that has just been allocated. */
  function Idle(tb: Tables): Config {
    Config([], -1, tb.NoCode(), false, false, [])
  }

  /** Calls with the given tokens, one after the other, each of them cut off after `limit` turns;
      a call that was cut off is the last one. */
  function Session(tb: Tables, c: Config, tokens: seq<nat>, limit: nat): Config
    requires TablesUsable(tb)
    decreases |tokens|
  {
    if tokens == [] || Running(tb, c) then c
    else Session(tb, Run(tb, Begin(c, tokens[0]), limit), tokens[1..], limit)
  }

  lemma {:induction false} RunAdd(tb: Tables, c: Config, n: nat, m: nat)
    requires TablesUsable(tb)
    ensures Run(tb, c, n + m) == Run(tb, Run(tb, c, n), m)
    decreases n
  {
    if n > 0 && Running(tb, c) {
      RunAdd(tb, Step(tb, c), n - 1, m);
    } else if n > 0 {
      RunStopped(tb, c, n + m);
      RunStopped(tb, c, m);
    }
  }

  lemma RunStopped(tb: Tables, c: Config, n: nat)
    requires TablesUsable(tb) && !Running(tb, c)
    ensures Run(tb, c, n) == c
  {
  }

  // ----- The parser object -----

  class Parser {
    const tb: Tables
    var yyidx: int
    var yyerrcnt: int
    var yystack: array<Entry>
    ghost var log: seq<Event>

    ghost predicate Valid()
      reads this, yystack
    {
      TablesUsable(tb) && yystack.Length == tb.depth && -1 <= yyidx < yystack.Length
    }

    ghost function Contents(): seq<Entry>
      requires Valid()
      reads this, yystack
    {
      yystack[..yyidx + 1]
    }

    /** Between two calls. */
    ghost function State(): Config
      requires Valid()
      reads this, yystack
    {
      Config(Contents(), yyerrcnt, tb.NoCode(), false, false, log)
    }

    constructor (tb: Tables)
      requires TablesUsable(tb)
      ensures Valid() && this.tb == tb && State() == Idle(tb) && fresh(yystack)
    {
      this.tb := tb;
      yyidx, yyerrcnt := -1, -1;
      yystack := new Entry[tb.depth](_ => Entry(0, 0));
      log := [];
    }

    /** Pop one level and return its symbol, 0 from an empty stack. */
    method PopParserStack() returns (major: nat)
      requires Valid()
      modifies this`yyidx
      ensures Valid() && (old(Contents()) == [] ==> major == 0 && Contents() == [])
      ensures old(Contents()) != [] ==>
        major == Top(old(Contents())).major && Contents() == old(Contents())[..|old(Contents())| - 1]
    {
      if yyidx < 0 { return 0; }
      major := yystack[yyidx].major;
      yyidx := yyidx - 1;
    }

    method PopAll()
      requires Valid()
      modifies this`yyidx
      ensures Valid() && Contents() == []
    {
      while yyidx >= 0
        invariant Valid()
        decreases yyidx
      {
        var major := PopParserStack();
      }
    }

    method Accept()
      requires Valid()
      modifies this`yyidx, this`log
      ensures Valid() && Contents() == [] && log == old(log) + [Accepted]
    {
      PopAll();
      log := log + [Accepted];
    }

    method StackOverflow()
      requires TablesUsable(tb) && yystack.Length == tb.depth && yyidx == yystack.Length
      modifies this`yyidx, this`log
      ensures Valid() && Contents() == [] && log == old(log) + [Overflowed]
    {
      yyidx := yyidx - 1;
      PopAll();
      log := log + [Overflowed];
    }

    method Shift(newState: nat, major: nat)
      requires Valid()
      modifies this`yyidx, this`log, yystack
      ensures Valid() && Contents() == Push(tb, old(Contents()), Entry(newState, major))
      ensures log == old(log) + if Contents() == [] then [Overflowed] else []
    {
      yyidx := yyidx + 1;
      if yyidx >= yystack.Length {
        StackOverflow();
        return;
      }
      yystack[yyidx] := Entry(newState, major);
    }

    /** The reduce, whose right-hand side must be on the stack. */
    method Reduce(ruleno: nat, ghost c: Config)
      requires Valid() && ruleno < tb.nrule && Contents() == c.stack && log == c.log
      requires tb.ruleInfo[ruleno].nrhs < |c.stack|
      requires var below := c.stack[..|c.stack| - tb.ruleInfo[ruleno].nrhs];
               Top(below).stateno < tb.nstate && LookupReduce(tb, below, tb.ruleInfo[ruleno].lhs) >= 0
      modifies this`yyidx, this`log, yystack
      ensures Valid() && Contents() == ReduceStep(tb, c, ruleno).stack && log == ReduceStep(tb, c, ruleno).log
    {
      var goto_ := tb.ruleInfo[ruleno].lhs;
      var size := tb.ruleInfo[ruleno].nrhs;
      log := log + [Reduced(ruleno)];
      yyidx := yyidx - size;
      ghost var below := c.stack[..|c.stack| - size];
      assert Contents() == below;
      assert Top(below) == yystack[yyidx];
      var act := FindReduceAction(tb, yystack[yyidx].stateno, goto_);
      if act < tb.nstate {
        if size > 0 {
          yyidx := yyidx + 1;
          yystack[yyidx] := Entry(act, goto_);
          assert Contents() == below + [Entry(act, goto_)];
        } else {
          Shift(act, goto_);
        }
      } else if act == tb.nstate + tb.nrule + 1 {
        Accept();
      }
    }

    /** Error recovery: pop to the topmost state that can shift the error symbol. */
    method PopForError() returns (act: int)
      requires Valid() && forall k | 0 <= k < |Contents()| :: Contents()[k].stateno < tb.nstate
      modifies this`yyidx
      ensures Valid() && Contents() == PopToError(tb, old(Contents())) && |Contents()| <= |old(Contents())|
      ensures Contents() != [] ==> act == LookupReduce(tb, Contents(), tb.errsym) < tb.nstate
    {
      act := tb.nstate;
      ghost var st := Contents();
      while yyidx >= 0
        invariant Valid() && Contents() == st[..yyidx + 1] && yyidx < |st|
        invariant PopToError(tb, Contents()) == PopToError(tb, st)
        decreases yyidx
      {
        assert Top(Contents()) == yystack[yyidx] == st[yyidx];
        act := FindReduceAction(tb, yystack[yyidx].stateno, tb.errsym);
        if act < tb.nstate { return; }
        var major := PopParserStack();
        assert Contents() == st[..yyidx + 2][..yyidx + 1] == st[..yyidx + 1];
      }
    }

    /** Throw the pending token away. */
    method Discard(token: nat) returns (major: nat)
      modifies this`log
      ensures log == old(log) + [Discarded(token)] && major == tb.NoCode()
    {
      log := log + [Discarded(token)];
      major := tb.NoCode();
    }

    /** Give up: throw the token away and empty the stack. */
    method Fail(token: nat) returns (major: nat)
      requires Valid()
      modifies this`yyidx, this`log
      ensures Valid() && Contents() == [] && log == old(log) + [Discarded(token), Failed] && major == tb.NoCode()
    {
      PopAll();
      log := log + [Discarded(token), Failed];
      major := tb.NoCode();
    }

    /** Push the error symbol. */
    method ShiftError(act: nat)
      requires Valid()
      modifies this`yyidx, this`log, yystack
      ensures Valid() && Contents() == Push(tb, old(Contents()), Entry(act, tb.errsym))
      ensures log == old(log) + [if Contents() == [] then Overflowed else ErrorShifted]
    {
      Shift(act, tb.errsym);
      if yyidx >= 0 { log := log + [ErrorShifted]; }
    }

    /** The response to a syntax error on the pending token. */
    method HandleError(major0: nat, errorhit: bool, ghost c: Config) returns (major: nat)
      requires Valid() && Contents() != []
      requires c == Config(Contents(), yyerrcnt, major0, errorhit, c.endofinput, log)
      requires forall k | 0 <= k < |Contents()| :: Contents()[k].stateno < tb.nstate
      requires Stuck !in ErrorStep(tb, c).log
      modifies this`yyidx, this`yyerrcnt, this`log, yystack
      ensures Valid()
      ensures Config(Contents(), yyerrcnt, major, true, c.endofinput, log) == ErrorStep(tb, c)
    {
      hide PopToError, FindReduceAction, ChainEnds, ErrorStep, Push;
      major := major0;
      log := log + [Errored(major, yyerrcnt < 0)];
      assert Top(c.stack) == yystack[yyidx];
      var yymx := yystack[yyidx].major;
      if yymx == tb.errsym || errorhit {
        ErrorDiscards(tb, c);
        major := Discard(major);
      } else {
        var act := PopForError();
        if yyidx < 0 || major == 0 {
          ErrorFails(tb, c);
          major := Fail(major);
        } else {
          NotNegative(tb, c, act);
          ErrorPushes(tb, c, act);
          ShiftError(act);
        }
      }
      yyerrcnt := 3;
    }

    /** One turn of the loop of `Parse`, on the pending token. */
    method Turn(major0: nat, errorhit0: bool, endofinput: bool) returns (major: nat, errorhit: bool)
      requires Valid() && Contents() != []
      requires forall k | 0 <= k < |Contents()| :: Contents()[k].stateno < tb.nstate
      requires Stuck !in Step(tb, Config(Contents(), yyerrcnt, major0, errorhit0, endofinput, log)).log
      modifies this`yyidx, this`yyerrcnt, this`log, yystack
      ensures Valid()
      ensures Config(Contents(), yyerrcnt, major, errorhit, endofinput, log) ==
              Step(tb, Config(old(Contents()), old(yyerrcnt), major0, errorhit0, endofinput, old(log)))
    {
      hide ReduceStep, ErrorStep, FindShiftAction, PopToError;
      ghost var c := Config(Contents(), yyerrcnt, major0, errorhit0, endofinput, log);
      major, errorhit := major0, errorhit0;
      assert Top(c.stack) == yystack[yyidx];
      var act := FindShiftAction(tb, yystack[yyidx].stateno, major, |tb.fallback|);
      assert act == LookupShift(tb, c.stack, major0);
      StepNotNegative(tb, c, act);
      if act < tb.nstate {
        log := log + [Shifted(major)];
        Shift(act, major);
        yyerrcnt := yyerrcnt - 1;
        if endofinput && yyidx >= 0 { major := 0; } else { major := tb.NoCode(); }
      } else if act < tb.nstate + tb.nrule {
        ReduceNotStuck(tb, c, act - tb.nstate);
        ReduceKeeps(tb, c, act - tb.nstate);
        Reduce(act - tb.nstate, c);
      } else if act == tb.nstate + tb.nrule {
        major := HandleError(major, errorhit, c);
        errorhit := true;
      } else {
        Accept();
        major := tb.NoCode();
      }
    }

    /** A call with one token, cut off after `limit` turns. */
    method Parse(token: nat, limit: nat) returns (major: nat, ghost c: Config)
      requires Valid() && token != tb.NoCode()
      requires forall n: nat | n <= limit :: NeverStuck(tb, Run(tb, Begin(State(), token), n))
      modifies this`yyidx, this`yyerrcnt, this`log, yystack
      ensures Valid()
      ensures c == Run(tb, Begin(old(State()), token), limit)
      ensures Contents() == c.stack && yyerrcnt == c.errcnt && log == c.log && major == c.major
    {
      hide Step, Run, NeverStuck;
      ghost var c0 := Begin(State(), token);
      if yyidx < 0 {
        yyidx, yyerrcnt, log := 0, -1, [];
        yystack[0] := Entry(0, 0);
        assert Contents() == [Entry(0, 0)];
      }
      major := token;
      var endofinput, errorhit := token == 0, false;
      c := c0;
      var n := 0;
      RunZero(tb, c0);
      while major != tb.NoCode() && yyidx >= 0 && n < limit
        invariant Valid() && n <= limit
        invariant c == Config(Contents(), yyerrcnt, major, errorhit, endofinput, log) == Run(tb, c0, n)
        decreases limit - n
      {
        assert NeverStuck(tb, Run(tb, c0, n)) && NeverStuck(tb, Run(tb, c0, n + 1));
        RunNext(tb, c0, n);
        TurnSafe(tb, c);
        major, errorhit := Turn(major, errorhit, endofinput);
        c := Step(tb, c);
        n := n + 1;
      }
      RunFinished(tb, c0, n, limit);
    }
  }

  lemma NotNegative(tb: Tables, c: Config, act: int)
    requires WfTables(tb) && c.stack != []
    requires !(Top(c.stack).major == tb.errsym || c.errorhit) && PopToError(tb, c.stack) != [] && c.major != 0
    requires act == LookupReduce(tb, PopToError(tb, c.stack), tb.errsym)
    ensures act < 0 ==> Stuck in ErrorStep(tb, c).log
  {
    if act < 0 {
      assert ErrorStep(tb, c).log[|c.log| + 1] == Stuck;
    }
  }

  lemma ErrorDiscards(tb: Tables, c: Config)
    requires WfTables(tb) && c.stack != [] && (Top(c.stack).major == tb.errsym || c.errorhit)
    ensures ErrorStep(tb, c) == Config(c.stack, 3, tb.NoCode(), true, c.endofinput,
                                       c.log + [Errored(c.major, c.errcnt < 0)] + [Discarded(c.major)])
  {
  }

  lemma ErrorFails(tb: Tables, c: Config)
    requires WfTables(tb) && c.stack != [] && !(Top(c.stack).major == tb.errsym || c.errorhit)
    requires PopToError(tb, c.stack) == [] || c.major == 0
    ensures ErrorStep(tb, c) == Config([], 3, tb.NoCode(), true, c.endofinput,
                                       c.log + [Errored(c.major, c.errcnt < 0)] + [Discarded(c.major), Failed])
  {
  }

  lemma ErrorPushes(tb: Tables, c: Config, act: nat)
    requires WfTables(tb) && c.stack != [] && !(Top(c.stack).major == tb.errsym || c.errorhit)
    requires PopToError(tb, c.stack) != [] && c.major != 0
    requires act == LookupReduce(tb, PopToError(tb, c.stack), tb.errsym)
    ensures var pushed := Push(tb, PopToError(tb, c.stack), Entry(act, tb.errsym));
      ErrorStep(tb, c) == Config(pushed, 3, c.major, true, c.endofinput,
        c.log + [Errored(c.major, c.errcnt < 0)] + [if pushed == [] then Overflowed else ErrorShifted])
  {
  }

  lemma StepNotNegative(tb: Tables, c: Config, act: int)
    requires TablesUsable(tb) && c.stack != [] && act == LookupShift(tb, c.stack, c.major)
    ensures act < 0 ==> Stuck in Step(tb, c).log
  {
    if act < 0 {
      assert Step(tb, c).log[|c.log|] == Stuck;
    }
  }

  lemma ReduceNotStuck(tb: Tables, c: Config, r: nat)
    requires WfTables(tb) && r < tb.nrule && c.stack != []
    ensures tb.ruleInfo[r].nrhs >= |c.stack| ==> Stuck in ReduceStep(tb, c, r).log
    ensures tb.ruleInfo[r].nrhs < |c.stack| &&
            LookupReduce(tb, c.stack[..|c.stack| - tb.ruleInfo[r].nrhs], tb.ruleInfo[r].lhs) < 0
            ==> Stuck in ReduceStep(tb, c, r).log
  {
    var size := tb.ruleInfo[r].nrhs;
    if size >= |c.stack| {
      assert ReduceStep(tb, c, r).log[|c.log|] == Stuck;
    } else if LookupReduce(tb, c.stack[..|c.stack| - size], tb.ruleInfo[r].lhs) < 0 {
      assert ReduceStep(tb, c, r).log[|c.log| + 1] == Stuck;
    }
  }

  lemma ReduceKeeps(tb: Tables, c: Config, r: nat)
    requires WfTables(tb) && r < tb.nrule
    ensures var d := ReduceStep(tb, c, r); d == Config(d.stack, c.errcnt, c.major, c.errorhit, c.endofinput, d.log)
  {
  }

  /** No step so far went outside the stack or the tables, and all states are states. */
  ghost predicate NeverStuck(tb: Tables, c: Config) {
    Stuck !in c.log && forall k | 0 <= k < |c.stack| :: c.stack[k].stateno < tb.nstate
  }

  lemma RunZero(tb: Tables, c: Config)
    requires TablesUsable(tb)
    ensures Run(tb, c, 0) == c
  {
  }

  lemma RunOne(tb: Tables, c: Config, n: nat)
    requires TablesUsable(tb) && Running(tb, c) && n > 0
    ensures Run(tb, c, n) == Run(tb, Step(tb, c), n - 1)
  {
  }

  lemma RunNext(tb: Tables, c: Config, n: nat)
    requires TablesUsable(tb) && Running(tb, Run(tb, c, n))
    ensures Run(tb, c, n + 1) == Step(tb, Run(tb, c, n))
  {
    RunAdd(tb, c, n, 1);
    var d := Run(tb, c, n);
    assert Run(tb, d, 1) == Run(tb, Step(tb, d), 0);
  }

  lemma RunFinished(tb: Tables, c: Config, n: nat, limit: nat)
    requires TablesUsable(tb) && n <= limit
    requires !Running(tb, Run(tb, c, n)) || n == limit
    ensures Run(tb, c, limit) == Run(tb, c, n)
  {
    RunAdd(tb, c, n, limit - n);
  }

  lemma TurnSafe(tb: Tables, c: Config)
    requires TablesUsable(tb) && c.stack != [] && NeverStuck(tb, c) && NeverStuck(tb, Step(tb, c))
    ensures Stuck !in Step(tb, c).log && forall k | 0 <= k < |c.stack| :: c.stack[k].stateno < tb.nstate
  {
  }
}
