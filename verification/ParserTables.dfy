/** The constant tables of a generated parser and the two lookups the parser makes in them. */
module ParserTables {
  import opened Grammars
  import opened Compression

  datatype RuleInfo = RuleInfo(lhs: nat, nrhs: nat)

  datatype Tables = Tables(
    nstate: nat,
    nrule: nat,
    nsymbol: nat,
    yyAction: seq<int>,
    yyLookahead: seq<int>,
    shiftOfst: seq<int>,
    shiftUseDflt: int,
    reduceOfst: seq<int>,
    reduceUseDflt: int,
    yyDefault: seq<int>,
    fallback: seq<nat>,
    wildcard: Option<nat>,
    ruleInfo: seq<RuleInfo>,
    errsym: nat,
    depth: nat)
  {
    function NoCode(): nat { nsymbol + 1 }
    function NoAction(): nat { nstate + nrule + 2 }
    function AcceptAction(): nat { nstate + nrule + 1 }
    function ErrorCode(): nat { nstate + nrule }
  }

  /** The entry of the action table for lookahead `x` at offset `ofst`, if it is there. */
  function Hit(tb: Tables, ofst: int, x: nat): Option<int>
    requires |tb.yyLookahead| == |tb.yyAction|
  {
    if 0 <= ofst + x < |tb.yyAction| && tb.yyLookahead[ofst + x] == x then Some(tb.yyAction[ofst + x]) else None
  }

  ghost predicate WfTables(tb: Tables) {
    && |tb.yyLookahead| == |tb.yyAction|
    && |tb.yyDefault| == tb.nstate
    && |tb.shiftOfst| <= tb.nstate && |tb.reduceOfst| <= tb.nstate
    && |tb.ruleInfo| == tb.nrule
  }

  /** The action for a terminal lookahead in a state. */
  function FindShiftAction(tb: Tables, stateno: nat, lookahead: nat, ghost n: nat): int
    requires WfTables(tb) && stateno < tb.nstate && ChainEnds(tb.fallback, lookahead, n)
    decreases n
  {
    if stateno >= |tb.shiftOfst| || tb.shiftOfst[stateno] == tb.shiftUseDflt then
      tb.yyDefault[stateno]
    else if lookahead == tb.NoCode() then
      tb.NoAction()
    else
      var i := tb.shiftOfst[stateno];
      var own := Hit(tb, i, lookahead);
      if own.Some? then own.value
      else if lookahead > 0 then
        if lookahead < |tb.fallback| && tb.fallback[lookahead] != 0 then
          FindShiftAction(tb, stateno, tb.fallback[lookahead], n - 1)
        else if tb.wildcard.Some? && Hit(tb, i, tb.wildcard.value).Some? then
          Hit(tb, i, tb.wildcard.value).value
        else
          tb.yyDefault[stateno]
      else
        tb.yyDefault[stateno]
  }

  /** The action for a nonterminal in a state. */
  function FindReduceAction(tb: Tables, stateno: nat, lookahead: nat): int
    requires WfTables(tb) && stateno < tb.nstate
  {
    if stateno >= |tb.reduceOfst| || tb.reduceOfst[stateno] == tb.reduceUseDflt then
      tb.yyDefault[stateno]
    else if lookahead == tb.NoCode() then
      tb.NoAction()
    else
      var own := Hit(tb, tb.reduceOfst[stateno], lookahead);
      if own.Some? then own.value else tb.yyDefault[stateno]
  }
}
