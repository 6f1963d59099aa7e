/** Rightmost derivations, and their agreement with parse trees.  A bottom-up parser
    performs a rightmost derivation backwards; this module says what that means without
    mentioning a parser. */
module Derivations {
  import opened Grammars

  /** `next` is `form` with the nonterminal at position `k` rewritten by rule `r`, and only
      terminals stand to the right of position `k`. */
  ghost predicate RightmostStepAt(g: Grammar, form: seq<nat>, r: nat, next: seq<nat>, k: nat) {
    && r < |g.rules| && k < |form|
    && form[k] == g.rules[r].lhs
    && Terminals(g, form[k + 1..])
    && |next| == |form| - 1 + |g.rules[r].rhs|
    && next[..k] == form[..k]
    && SpellsAll(g.rules[r].rhs, next[k..k + |g.rules[r].rhs|])
    && next[k + |g.rules[r].rhs|..] == form[k + 1..]
  }

  ghost predicate RightmostStep(g: Grammar, form: seq<nat>, r: nat, next: seq<nat>) {
    exists k: nat :: RightmostStepAt(g, form, r, next, k)
  }

  /** Rewriting the rightmost nonterminal by the rules `rs`, in this order, leads from
      `form` to `w`. */
  ghost predicate Rightmost(g: Grammar, form: seq<nat>, rs: seq<nat>, w: seq<nat>)
    decreases |rs|
  {
    if rs == [] then form == w
    else exists next :: RightmostStep(g, form, rs[0], next) && Rightmost(g, next, rs[1..], w)
  }

  lemma {:induction false} RightmostTrans(g: Grammar, x: seq<nat>, r1: seq<nat>, y: seq<nat>, r2: seq<nat>, z: seq<nat>)
    requires Rightmost(g, x, r1, y) && Rightmost(g, y, r2, z)
    ensures Rightmost(g, x, r1 + r2, z)
    decreases |r1|
  {
    hide RightmostStep;
    if r1 == [] {
      assert r1 + r2 == r2;
    } else {
      var next :| RightmostStep(g, x, r1[0], next) && Rightmost(g, next, r1[1..], y);
      RightmostTrans(g, next, r1[1..], y, r2, z);
      var rs := r1 + r2;
      assert rs[0] == r1[0] && rs[1..] == r1[1..] + r2;
    }
  }

  lemma StepUnderPrefix(g: Grammar, p: seq<nat>, form: seq<nat>, r: nat, next: seq<nat>)
    requires RightmostStep(g, form, r, next)
    ensures RightmostStep(g, p + form, r, p + next)
  {
    hide Terminals, Spells;
    var k: nat :| RightmostStepAt(g, form, r, next, k);
    var n := |g.rules[r].rhs|;
    assert (p + form)[|p| + k + 1..] == form[k + 1..];
    assert (p + next)[|p| + k + n..] == next[k + n..];
    assert (p + next)[|p| + k..|p| + k + n] == next[k..k + n];
    assert (p + next)[..|p| + k] == p + next[..k] == (p + form)[..|p| + k];
    assert RightmostStepAt(g, p + form, r, p + next, |p| + k);
  }

  lemma StepBeforeTerminals(g: Grammar, form: seq<nat>, r: nat, next: seq<nat>, w: seq<nat>)
    requires RightmostStep(g, form, r, next) && Terminals(g, w)
    ensures RightmostStep(g, form + w, r, next + w)
  {
    hide Terminals, Spells;
    var k: nat :| RightmostStepAt(g, form, r, next, k);
    var n := |g.rules[r].rhs|;
    SplitBefore(form, w, k + 1);
    SplitBefore(next, w, k + n);
    SplitBefore(next, w, k);
    SplitBefore(form, w, k);
    TerminalsSplit(g, form[k + 1..], w);
    assert (next + w)[k..k + n] == next[k..k + n];
    assert RightmostStepAt(g, form + w, r, next + w, k);
  }

  lemma SplitBefore(form: seq<nat>, w: seq<nat>, k: nat)
    requires k <= |form|
    ensures (form + w)[k..] == form[k..] + w && (form + w)[..k] == form[..k]
  {
  }

  lemma {:induction false} RightmostUnderPrefix(g: Grammar, p: seq<nat>, form: seq<nat>, rs: seq<nat>, w: seq<nat>)
    requires Rightmost(g, form, rs, w)
    ensures Rightmost(g, p + form, rs, p + w)
    decreases |rs|
  {
    if rs != [] {
      var next :| RightmostStep(g, form, rs[0], next) && Rightmost(g, next, rs[1..], w);
      StepUnderPrefix(g, p, form, rs[0], next);
      RightmostUnderPrefix(g, p, next, rs[1..], w);
    }
  }

  lemma {:induction false} RightmostBeforeTerminals(g: Grammar, form: seq<nat>, rs: seq<nat>, u: seq<nat>, w: seq<nat>)
    requires Rightmost(g, form, rs, u) && Terminals(g, w)
    ensures Rightmost(g, form + w, rs, u + w)
    decreases |rs|
  {
    if rs != [] {
      var next :| RightmostStep(g, form, rs[0], next) && Rightmost(g, next, rs[1..], u);
      StepBeforeTerminals(g, form, rs[0], next, w);
      RightmostBeforeTerminals(g, next, rs[1..], u, w);
    }
  }

  lemma Juxtapose(g: Grammar, a: seq<nat>, r1: seq<nat>, u: seq<nat>, b: seq<nat>, r2: seq<nat>, v: seq<nat>)
    requires Rightmost(g, a, r1, u) && Rightmost(g, b, r2, v) && Terminals(g, v)
    ensures Rightmost(g, a + b, r2 + r1, u + v)
  {
    RightmostUnderPrefix(g, a, b, r2, v);
    RightmostBeforeTerminals(g, a, r1, u, v);
    RightmostTrans(g, a + b, r2, a + v, r1, u + v);
  }

  /** What one reduction of a bottom-up parser does to a derivation: the right-hand side on
      top of the stack gives way to its left-hand side, and the rule becomes the first step. */
  lemma ReduceExtends(g: Grammar, form: seq<nat>, r: nat, rs: seq<nat>, w: seq<nat>)
    requires r < |g.rules| && |g.rules[r].rhs| <= |form|
    requires SpellsAll(g.rules[r].rhs, form[|form| - |g.rules[r].rhs|..])
    requires Rightmost(g, form, rs, w)
    ensures Rightmost(g, form[..|form| - |g.rules[r].rhs|] + [g.rules[r].lhs], [r] + rs, w)
  {
    var k := |form| - |g.rules[r].rhs|;
    var before := form[..k] + [g.rules[r].lhs];
    assert before[..k] == form[..k];
    assert form[k..k + |g.rules[r].rhs|] == form[k..];
    assert form[k + |g.rules[r].rhs|..] == [] == before[k + 1..];
    assert RightmostStepAt(g, before, r, form, k);
    assert ([r] + rs)[1..] == rs;
  }

  // ----- Derivations and trees -----

  lemma {:induction false} DerivationToForest(g: Grammar, form: seq<nat>, rs: seq<nat>, w: seq<nat>)
    returns (f: seq<Tree>)
    requires Rightmost(g, form, rs, w)
    requires forall i | 0 <= i < |w| :: w[i] < g.nsymbol
    ensures WfForest(g, f) && Roots(g, f) == form && YieldAll(f) == w
    ensures rs != [] && |form| == 1 ==> f[0].Node?
    decreases |rs|
  {
    if rs == [] {
      f := Leaves(w);
      YieldOfLeaves(w);
    } else {
      var next :| RightmostStep(g, form, rs[0], next) && Rightmost(g, next, rs[1..], w);
      var k: nat :| RightmostStepAt(g, form, rs[0], next, k);
      var h := DerivationToForest(g, next, rs[1..], w);
      f := FoldNode(g, form, rs[0], next, k, h);
    }
  }

  lemma FoldNode(g: Grammar, form: seq<nat>, r: nat, next: seq<nat>, k: nat, h: seq<Tree>) returns (f: seq<Tree>)
    requires RightmostStepAt(g, form, r, next, k)
    requires WfForest(g, h) && Roots(g, h) == next
    ensures WfForest(g, f) && Roots(g, f) == form && YieldAll(f) == YieldAll(h)
    ensures f[k].Node?
  {
    hide Terminals, Spells, YieldAll;
    var n := |g.rules[r].rhs|;
    var kids := h[k..k + n];
    var node := Node(r, kids);
    assert Roots(g, kids) == next[k..k + n];
    assert WfTree(g, node);
    f := h[..k] + [node] + h[k + n..];
    assert forall i | 0 <= i < |f| :: Root(g, f[i]) == form[i] by {
      forall i | 0 <= i < |f| ensures Root(g, f[i]) == form[i] {
        if i < k {
          assert next[..k][i] == form[..k][i];
        } else if i > k {
          assert next[k + n..][i - k - 1] == form[k + 1..][i - k - 1];
        }
      }
    }
    FoldYield(h, k, n, node);
  }

  lemma FoldYield(h: seq<Tree>, k: nat, n: nat, node: Tree)
    requires k + n <= |h| && Yield(node) == YieldAll(h[k..k + n])
    ensures YieldAll(h[..k] + [node] + h[k + n..]) == YieldAll(h)
  {
    hide Yield, YieldAll;
    var before, after := h[..k], h[k + n..];
    assert h == before + h[k..k + n] + after;
    YieldOfThree(before, h[k..k + n], after);
    YieldOfThree(before, [node], after);
    YieldOfOne(node);
  }

  lemma YieldOfThree(a: seq<Tree>, b: seq<Tree>, c: seq<Tree>)
    ensures YieldAll(a + b + c) == YieldAll(a) + YieldAll(b) + YieldAll(c)
  {
    YieldAllConcat(a + b, c);
    YieldAllConcat(a, b);
  }

  lemma YieldOfOne(t: Tree)
    ensures YieldAll([t]) == Yield(t)
  {
    assert [t][1..] == [];
    assert Yield(t) + [] == Yield(t);
  }

  /** The rules of a tree in the order of its rightmost derivation. */
  ghost function Rules(t: Tree): seq<nat>
    decreases t, 0
  {
    match t
    case Leaf(_) => []
    case Node(r, kids) => [r] + RulesAll(kids)
  }

  ghost function RulesAll(f: seq<Tree>): seq<nat>
    decreases f, 1
  {
    if f == [] then [] else RulesAll(f[1..]) + Rules(f[0])
  }

  lemma {:induction false} RulesDeriveTree(g: Grammar, t: Tree)
    requires WfTree(g, t) && Terminals(g, Yield(t))
    ensures Rightmost(g, [Root(g, t)], Rules(t), Yield(t))
    decreases t, 0
  {
    hide Rightmost;
    match t
    case Leaf(s) =>
      DeriveNothing(g, [s]);
    case Node(r, kids) =>
      RulesDeriveForest(g, kids);
      assert Roots(g, kids)[|kids| - |kids|..] == Roots(g, kids);
      ReduceExtends(g, Roots(g, kids), r, RulesAll(kids), YieldAll(kids));
      assert Roots(g, kids)[..0] + [g.rules[r].lhs] == [Root(g, t)];
  }

  lemma DeriveNothing(g: Grammar, form: seq<nat>)
    ensures Rightmost(g, form, [], form)
  {
  }

  /** One rightmost step in a context. */
  lemma Expand(g: Grammar, r: nat, body: seq<nat>, before: seq<nat>, y: seq<nat>)
    requires r < |g.rules| && SpellsAll(g.rules[r].rhs, body) && Terminals(g, y)
    ensures Rightmost(g, before + [g.rules[r].lhs] + y, [r], before + body + y)
  {
    hide Spells, Rightmost;
    DeriveNothing(g, body);
    assert body[|body| - |g.rules[r].rhs|..] == body;
    ReduceExtends(g, body, r, [], body);
    assert body[..0] + [g.rules[r].lhs] == [g.rules[r].lhs] && [r] + [] == [r];
    RightmostUnderPrefix(g, before, [g.rules[r].lhs], [r], body);
    RightmostBeforeTerminals(g, before + [g.rules[r].lhs], [r], before + body, y);
  }

  lemma {:induction false} RulesDeriveForest(g: Grammar, f: seq<Tree>)
    requires WfForest(g, f) && Terminals(g, YieldAll(f))
    ensures Rightmost(g, Roots(g, f), RulesAll(f), YieldAll(f))
    decreases f, 1
  {
    hide Rightmost;
    if f == [] {
      DeriveNothing(g, []);
      assert Roots(g, f) == [];
    } else {
      TerminalsSplit(g, Yield(f[0]), YieldAll(f[1..]));
      RulesDeriveTree(g, f[0]);
      RulesDeriveForest(g, f[1..]);
      assert Roots(g, f) == [Root(g, f[0])] + Roots(g, f[1..]);
      Juxtapose(g, [Root(g, f[0])], Rules(f[0]), Yield(f[0]), Roots(g, f[1..]), RulesAll(f[1..]), YieldAll(f[1..]));
    }
  }

  lemma TerminalsSplit(g: Grammar, u: seq<nat>, v: seq<nat>)
    ensures Terminals(g, u + v) <==> Terminals(g, u) && Terminals(g, v)
  {
    if Terminals(g, u + v) {
      forall i | 0 <= i < |u| ensures u[i] < g.nterminal { assert (u + v)[i] == u[i]; }
      forall i | 0 <= i < |v| ensures v[i] < g.nterminal { assert (u + v)[|u| + i] == v[i]; }
    }
  }

  /** The sentences of a grammar are exactly the terminal strings that rightmost derivations
      reach from the start symbol. */
  lemma SentenceIffDerived(g: Grammar, w: seq<nat>)
    requires WfGrammar(g) && Terminals(g, w)
    ensures Sentence(g, w) <==> exists rs :: Rightmost(g, [g.start], rs, w)
  {
    if Sentence(g, w) {
      var t :| ParseOf(g, t, w);
      RulesDeriveTree(g, t);
      assert Rightmost(g, [g.start], Rules(t), w);
    }
    if exists rs :: Rightmost(g, [g.start], rs, w) {
      var rs :| Rightmost(g, [g.start], rs, w);
      var f := DerivationToForest(g, [g.start], rs, w);
      assert Roots(g, f)[0] == g.start && f[1..] == [];
      assert ParseOf(g, f[0], w);
    }
  }
}
