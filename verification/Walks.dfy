/** Runs of the parser across several calls. */
module Walks {
  import opened Grammars
  import opened ParserTables
  import opened Driver

  /** From `c`, inside a call, the parser comes to `d`, beginning calls with the tokens `q` on the
      way; each call but the last runs to its end and leaves the stack in use. */
  ghost predicate Walk(tb: Tables, c: Config, q: seq<nat>, d: Config)
    requires TablesUsable(tb)
    decreases |q|
  {
    exists n: nat :: WalkVia(tb, c, q, d, n)
  }

  ghost predicate WalkVia(tb: Tables, c: Config, q: seq<nat>, d: Config, n: nat)
    requires TablesUsable(tb)
    decreases |q|, 0
  {
    var e := Run(tb, c, n);
    if q == [] then e == d
    else !Running(tb, e) && e.stack != [] && Walk(tb, Begin(e, q[0]), q[1..], d)
  }

  lemma {:induction false} WalkTrans(tb: Tables, c: Config, p: seq<nat>, d: Config, q: seq<nat>, e: Config)
    requires TablesUsable(tb) && Walk(tb, c, p, d) && Walk(tb, d, q, e)
    ensures Walk(tb, c, p + q, e)
    decreases |p|
  {
    hide Run, Running, Begin;
    var n: nat :| WalkVia(tb, c, p, d, n);
    if p == [] {
      assert p + q == q;
      var k: nat :| WalkVia(tb, d, q, e, k);
      RunAdd(tb, c, n, k);
      assert WalkVia(tb, c, q, e, n + k);
    } else {
      var b := Begin(Run(tb, c, n), p[0]);
      WalkTrans(tb, b, p[1..], d, q, e);
      assert (p + q)[1..] == p[1..] + q;
      assert WalkVia(tb, c, p + q, e, n);
    }
  }

  lemma WalkStep(tb: Tables, c: Config)
    requires TablesUsable(tb) && Running(tb, c)
    ensures Walk(tb, c, [], Step(tb, c))
  {
    hide Step;
    assert Run(tb, Step(tb, c), 0) == Step(tb, c);
    assert WalkVia(tb, c, [], Step(tb, c), 1);
  }

  lemma WalkNothing(tb: Tables, c: Config)
    requires TablesUsable(tb)
    ensures Walk(tb, c, [], c)
  {
    assert WalkVia(tb, c, [], c, 0);
  }

  lemma WalkNextCall(tb: Tables, c: Config, t: nat)
    requires TablesUsable(tb) && Running(tb, c)
    requires !Running(tb, Step(tb, c)) && Step(tb, c).stack != []
    ensures Walk(tb, c, [t], Begin(Step(tb, c), t))
  {
    hide Step;
    var e := Step(tb, c);
    assert Run(tb, e, 0) == e;
    assert Run(tb, c, 1) == e;
    WalkNothing(tb, Begin(e, t));
    assert [t][1..] == [];
    assert WalkVia(tb, c, [t], Begin(e, t), 1);
  }

  /** A walk to a finished call is what a session does, once its calls may be long enough. */
  lemma {:induction false} WalkIsSession(tb: Tables, c0: Config, t: nat, q: seq<nat>, d: Config) returns (limit: nat)
    requires TablesUsable(tb) && !Running(tb, c0) && Walk(tb, Begin(c0, t), q, d) && !Running(tb, d)
    ensures forall k: nat | k >= limit :: Session(tb, c0, [t] + q, k) == d
    decreases |q|
  {
    hide Running, Begin, Run;
    var c := Begin(c0, t);
    var n: nat :| WalkVia(tb, c, q, d, n);
    var e := Run(tb, c, n);
    assert !Running(tb, e);
    var more := 0;
    if q != [] {
      more := WalkIsSession(tb, e, q[0], q[1..], d);
      assert [q[0]] + q[1..] == q;
    }
    limit := if more > n then more else n;
    forall k: nat | k >= limit ensures Session(tb, c0, [t] + q, k) == d {
      RunFinished(tb, c, n, k);
      assert ([t] + q)[1..] == q;
      assert Session(tb, c0, [t] + q, k) == Session(tb, e, q, k);
    }
  }

  /** The levels above the bottom that parsing a tree needs. */
  ghost function Need(t: Tree): nat
    decreases t, 0
  {
    match t
    case Leaf(_) => 1
    case Node(_, kids) => if NeedAll(kids) == 0 then 1 else NeedAll(kids)
  }

  ghost function NeedAll(f: seq<Tree>): nat
    decreases f, 1
  {
    if f == [] then 0
    else
      var first, rest := Need(f[0]), 1 + NeedAll(f[1..]);
      if first > rest then first else rest
  }
}
