/** A client of the parser object: calls with one token after the other. */
module Clients {
  import opened Grammars
  import opened Driver
  import opened Machines
  import opened Steps
  import opened Soundness
  import opened OneCall

  /** The object stands between two calls where the configuration `c` says. */
  ghost predicate Between(c: Config, s: Config) {
    s.stack == c.stack && s.errcnt == c.errcnt && s.log == c.log
  }

  lemma BeginBetween(c: Config, s: Config, token: nat)
    requires Between(c, s)
    ensures Begin(s, token) == Begin(c, token)
  {
  }

  lemma SafeBetween(m: Machine, p: Parser, c: Config)
    requires Usable(m) && p.Valid() && p.tb == m.tb && Safe(m, c) && Between(c, p.State())
    ensures Safe(m, p.State())
  {
  }

  /** Feed the tokens to a new parser, until a call is cut off after `limit` turns: the object goes
      through exactly the configurations of the session. */
  method FeedAll(p: Parser, ghost m: Machine, tokens: seq<nat>, limit: nat) returns (ghost c: Config)
    requires Usable(m) && p.Valid() && p.tb == m.tb && p.State() == Idle(p.tb) && Terminals(m.g, tokens)
    modifies p`yyidx, p`yyerrcnt, p`log, p.yystack
    ensures p.Valid() && c == Session(p.tb, Idle(p.tb), tokens, limit)
    ensures p.Contents() == c.stack && p.yyerrcnt == c.errcnt && p.log == c.log
  {
    hide Usable, Safe, Run, Session, NeverStuck;
    MachineUsable(m);
    IdleIsSafe(m);
    c := Idle(p.tb);
    SessionOfNothing(p.tb, limit);
    var goesOn := false;
    for i := 0 to |tokens|
      invariant p.Valid() && Safe(m, c) && c == Session(p.tb, Idle(p.tb), tokens[..i], limit)
      invariant Between(c, p.State()) && goesOn == Running(p.tb, c)
    {
      assert tokens[..i + 1] == tokens[..i] + [tokens[i]];
      SessionSnoc(p.tb, Idle(p.tb), tokens[..i], tokens[i], limit);
      if goesOn { continue; }
      SafeBetween(m, p, c);
      CallIsSafe(m, p, tokens[i], limit);
      BeginBetween(c, p.State(), tokens[i]);
      TokenIsCode(m, tokens[i]);
      var major;
      major, c := p.Parse(tokens[i], limit);
      goesOn := major != p.tb.NoCode() && p.yyidx >= 0;
    }
    assert tokens[..|tokens|] == tokens;
  }

  lemma TokenIsCode(m: Machine, token: nat)
    requires Usable(m) && token < m.g.nterminal
    ensures token != m.tb.NoCode()
  {
    MachineUsable(m);
    MachineIsGrammar(m);
  }

  lemma MachineIsGrammar(m: Machine)
    requires Usable(m)
    ensures m.g.nterminal < m.g.nsymbol
  {
  }
}
