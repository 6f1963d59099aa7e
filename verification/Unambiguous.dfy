/** Consequences of soundness and completeness: a parser without conflicts recognises exactly
    its language, and its grammar is unambiguous. */
module Unambiguous {
  import opened Grammars
  import opened Derivations
  import opened FirstMeaning
  import opened Emit
  import opened Driver
  import opened Machines
  import opened Soundness
  import opened Walks
  import opened Completeness

  ghost predicate DeepEnough(m: Machine, w: seq<nat>) {
    forall t | ParseOf(m.g, t, w) :: NeedAll(t.kids) < m.tb.depth
  }

  ghost predicate Accepts(m: Machine, w: seq<nat>, limit: nat, rs: seq<nat>)
    requires TablesUsable(m.tb)
  {
    Parses(Session(m.tb, Idle(m.tb), w + [0], limit), w, rs)
  }

  /** With a stack that is deep enough, the inputs accepted without an error are exactly the
      sentences of the grammar. */
  lemma RecognisesExactly(m: Machine, q: Sets, w: seq<nat>)
    requires Setting(m, q) && NoSubstitutes(m.g) && Terminals(m.g, w) && DeepEnough(m, w)
    ensures TablesUsable(m.tb)
    ensures Sentence(m.g, w) <==> exists limit: nat, rs :: Accepts(m, w, limit, rs)
  {
    hide Setting, Session, ParseOf, Rightmost;
    SettingParts(m, q);
    if Sentence(m.g, w) {
      var t :| ParseOf(m.g, t, w);
      var limit := SentenceAccepted(m, q, t, w);
      assert Accepts(m, w, limit, Rules(t));
    }
    if exists limit: nat, rs :: Accepts(m, w, limit, rs) {
      var limit: nat, rs :| Accepts(m, w, limit, rs);
      ZeroIsTerminal(m);
      AcceptIsExactlySound(m, w + [0], limit);
    }
  }

  lemma ZeroIsTerminal(m: Machine)
    requires Usable(m)
    ensures 0 < m.g.nterminal
  {
  }

  // ----- Trees are determined by their rules and their yield -----

  lemma Reassociate(a: seq<nat>, b: seq<nat>, c: seq<nat>)
    ensures a + b + c == a + (b + c)
  {
  }

  lemma Unfold(f: seq<Tree>)
    requires f != []
    ensures RulesAll(f) == RulesAll(f[1..]) + Rules(f[0]) && YieldAll(f) == Yield(f[0]) + YieldAll(f[1..])
    ensures RulesAll([]) == [] && YieldAll([]) == []
  {
  }

  lemma {:induction false} RulesAllLast(f: seq<Tree>)
    requires f != []
    ensures RulesAll(f) == Rules(f[|f| - 1]) + RulesAll(f[..|f| - 1])
    ensures YieldAll(f) == YieldAll(f[..|f| - 1]) + Yield(f[|f| - 1])
  {
    hide Rules, RulesAll, Yield, YieldAll;
    var n := |f| - 1;
    Unfold(f);
    if n == 0 {
      assert f[1..] == [] == f[..0];
    } else {
      var mid := f[1..n];
      RulesAllLast(f[1..]);
      Unfold(f[..n]);
      assert f[1..][..n - 1] == mid && f[..n][1..] == mid;
      Reassociate(Rules(f[n]), RulesAll(mid), Rules(f[0]));
      Reassociate(Yield(f[0]), YieldAll(mid), Yield(f[n]));
    }
  }

  /** A tree whose yield is terminal is a node exactly if it stands for a nonterminal. */
  lemma NodeOrLeaf(g: Grammar, x: Symbol, t: Tree)
    requires WfGrammar(g) && WfSymbol(g, x) && WfTree(g, t) && Spells(x, Root(g, t)) && Terminals(g, Yield(t))
    ensures t.Node? <==> x.Nonterminal?
  {
    NodeSpellsNonterminal(g, x, t);
    if t.Leaf? {
      assert Yield(t)[0] < g.nterminal;
    }
  }

  lemma {:induction false} TreeDetermined(g: Grammar, x: Symbol, t: Tree, u: Tree, rt: seq<nat>, ru: seq<nat>,
        yt: seq<nat>, yu: seq<nat>)
    requires WfGrammar(g) && WfSymbol(g, x)
    requires WfTree(g, t) && Spells(x, Root(g, t)) && Terminals(g, Yield(t))
    requires WfTree(g, u) && Spells(x, Root(g, u)) && Terminals(g, Yield(u))
    requires Rules(t) + rt == Rules(u) + ru && yt + Yield(t) == yu + Yield(u)
    ensures t == u && rt == ru && yt == yu
    decreases t, 0
  {
    NodeOrLeaf(g, x, t);
    NodeOrLeaf(g, x, u);
    if t.Leaf? {
      assert rt == [] + rt == [] + ru == ru;
      assert (yt + [t.sym])[|yt|] == t.sym && (yu + [u.sym])[|yu|] == u.sym;
      assert yt == (yt + [t.sym])[..|yt|] == yu;
    } else {
      assert (Rules(t) + rt)[0] == t.rule && (Rules(u) + ru)[0] == u.rule;
      assert RulesAll(t.kids) + rt == (Rules(t) + rt)[1..] == (Rules(u) + ru)[1..] == RulesAll(u.kids) + ru;
      assert WfRule(g, g.rules[t.rule]);
      ForestDetermined(g, g.rules[t.rule].rhs, t.kids, u.kids, rt, ru, yt, yu);
    }
  }

  lemma {:induction false} ForestDetermined(g: Grammar, syms: seq<Symbol>, f: seq<Tree>, h: seq<Tree>, rf: seq<nat>,
        rh: seq<nat>, yf: seq<nat>, yh: seq<nat>)
    requires WfGrammar(g) && forall i | 0 <= i < |syms| :: WfSymbol(g, syms[i])
    requires WfForest(g, f) && SpellsAll(syms, Roots(g, f)) && Terminals(g, YieldAll(f))
    requires WfForest(g, h) && SpellsAll(syms, Roots(g, h)) && Terminals(g, YieldAll(h))
    requires RulesAll(f) + rf == RulesAll(h) + rh && yf + YieldAll(f) == yh + YieldAll(h)
    ensures f == h && rf == rh && yf == yh
    decreases f, 1
  {
    hide WfGrammar, WfSymbol, WfTree, Spells, Terminals;
    if f == [] {
      assert rf == [] + rf == [] + rh == rh && yf == yf + [] == yh + [] == yh;
    } else {
      var n := |f| - 1;
      LastOfForest(g, syms, f);
      LastOfForest(g, syms, h);
      var f0, h0 := f[..n], h[..n];
      Reassociate(Rules(f[n]), RulesAll(f0), rf);
      Reassociate(Rules(h[n]), RulesAll(h0), rh);
      Reassociate(yf, YieldAll(f0), Yield(f[n]));
      Reassociate(yh, YieldAll(h0), Yield(h[n]));
      TreeDetermined(g, syms[n], f[n], h[n], RulesAll(f0) + rf, RulesAll(h0) + rh,
                     yf + YieldAll(f0), yh + YieldAll(h0));
      ForestDetermined(g, syms[..n], f0, h0, rf, rh, yf, yh);
      assert f == f0 + [f[n]] && h == h0 + [h[n]];
    }
  }

  lemma LastOfForest(g: Grammar, syms: seq<Symbol>, f: seq<Tree>)
    requires f != [] && WfForest(g, f) && SpellsAll(syms, Roots(g, f)) && Terminals(g, YieldAll(f))
    ensures var n := |f| - 1;
      && WfTree(g, f[n]) && Spells(syms[n], Root(g, f[n])) && Terminals(g, Yield(f[n]))
      && WfForest(g, f[..n]) && SpellsAll(syms[..n], Roots(g, f[..n])) && Terminals(g, YieldAll(f[..n]))
      && RulesAll(f) == Rules(f[n]) + RulesAll(f[..n]) && YieldAll(f) == YieldAll(f[..n]) + Yield(f[n])
  {
    var n := |f| - 1;
    RulesAllLast(f);
    TerminalsSplit(g, YieldAll(f[..n]), Yield(f[n]));
    assert Roots(g, f)[n] == Root(g, f[n]);
    assert Roots(g, f[..n]) == Roots(g, f)[..n];
  }

  // ----- Unambiguity -----

  lemma Deeper(m: Machine, q: Sets, depth: nat)
    requires Setting(m, q) && depth > 0
    ensures Setting(m.(tb := m.tb.(depth := depth)), q)
  {
    hide Lr0, Sane, RowOk, FirstMeaning.EmptyRuleClosed;
    hide WfGrammar, Flows;
    var m' := m.(tb := m.tb.(depth := depth));
    assert Usable(m') by {
      SameRows(m, m');
    }
  }

  lemma SameRows(m: Machine, m': Machine)
    requires m' == m.(tb := m.tb.(depth := m'.tb.depth)) && TablesFor(m.g, m.num, m.aps, m.tb)
    ensures TablesFor(m.g, m.num, m.aps, m'.tb)
  {
  }

  /** A grammar with no state that has two actions on a symbol has at most one parse tree for
      any input. */
  lemma OneTree(m: Machine, q: Sets, t: Tree, u: Tree, w: seq<nat>)
    requires Setting(m, q) && ParseOf(m.g, t, w) && ParseOf(m.g, u, w)
    ensures t == u
  {
    hide Setting, Session;
    var depth := 1 + NeedAll(t.kids) + NeedAll(u.kids);
    Deeper(m, q, depth);
    var m' := m.(tb := m.tb.(depth := depth));
    var k1 := SentenceAccepted(m', q, t, w);
    var k2 := SentenceAccepted(m', q, u, w);
    var c := Session(m'.tb, Idle(m'.tb), w + [0], k1 + k2);
    assert Parses(c, w, Rules(t)) && Parses(c, w, Rules(u));
    SettingParts(m', q);
    TreeDetermined(m.g, Nonterminal(m.g.start), t, u, [], [], [], []);
  }
}
