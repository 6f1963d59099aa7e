/** The lambda flags and first sets of the nonterminals. */
module FirstSets {
  import opened Grammars

  type First = map<nat, set<nat>>

  ghost predicate HasEmptyRule(g: Grammar, a: nat) {
    exists r :: 0 <= r < |g.rules| && g.rules[r].lhs == a && g.rules[r].rhs == []
  }

  predicate SymbolLambda(lam: set<nat>, x: Symbol) {
    x.Nonterminal? && x.index in lam
  }

  predicate AllLambda(lam: set<nat>, syms: seq<Symbol>) {
    forall i | 0 <= i < |syms| :: SymbolLambda(lam, syms[i])
  }

  function SymbolFirst(first: First, x: Symbol): set<nat> {
    match x
    case Terminal(i) => {i}
    case Nonterminal(a) => if a in first then first[a] else {}
    case Multiterminal(subs) => set s | s in subs
  }

  /** The terminals that `lam` and `first` let stand at the front of `syms`. */
  function FirstOf(lam: set<nat>, first: First, syms: seq<Symbol>): set<nat> {
    if syms == [] then {}
    else SymbolFirst(first, syms[0]) + if SymbolLambda(lam, syms[0]) then FirstOf(lam, first, syms[1..]) else {}
  }

  predicate IsNonterminal(g: Grammar, a: nat) {
    g.nterminal <= a < g.nsymbol
  }

  ghost predicate Domain(g: Grammar, first: First) {
    && (forall a :: a in first <==> IsNonterminal(g, a))
    && (forall a, t :: a in first && t in first[a] ==> t < g.nterminal)
  }

  ghost predicate RuleSatisfied(g: Grammar, lam: set<nat>, first: First, r: nat)
    requires r < |g.rules|
  {
    g.rules[r].lhs in first && FirstOf(lam, first, g.rules[r].rhs) <= first[g.rules[r].lhs]
  }

  /** `first` satisfies the first-set equation of every rule. */
  ghost predicate Solution(g: Grammar, lam: set<nat>, first: First) {
    Domain(g, first) && forall r | 0 <= r < |g.rules| :: RuleSatisfied(g, lam, first, r)
  }

  ghost predicate Below(first: First, other: First) {
    forall a | a in first :: a in other && first[a] <= other[a]
  }

  ghost predicate BelowSolutions(g: Grammar, lam: set<nat>, first: First) {
    forall other | Solution(g, lam, other) :: Below(first, other)
  }

  ghost predicate LambdaIsEmptyRule(g: Grammar, lam: set<nat>) {
    forall a :: a in lam <==> HasEmptyRule(g, a)
  }

  /** What the computation returns: the flag of a symbol is set exactly when the symbol has an
      empty rule of its own, and the first sets are the least solution of their equations. */
  ghost predicate FirstSetsOf(g: Grammar, lam: set<nat>, first: First) {
    LambdaIsEmptyRule(g, lam) && Solution(g, lam, first) && BelowSolutions(g, lam, first)
  }

  // ----- Sets as the source keeps them -----

  method AddAll(s: set<nat>, subs: seq<nat>) returns (s': set<nat>, progress: bool)
    ensures s' == s + set k | k in subs
    ensures progress <==> s' != s
  {
    s', progress := s, false;
    for j := 0 to |subs|
      invariant s' == s + set k | k in subs[..j]
      invariant progress <==> s' != s
    {
      assert subs[..j + 1] == subs[..j] + [subs[j]];
      progress := progress || subs[j] !in s';
      s' := s' + {subs[j]};
    }
    assert subs[..|subs|] == subs;
  }

  // ----- FindFirstSets -----

  /** How far the scan of one right-hand side gets: only flagged terminals let it go on. */
  method LambdaScan(lam: set<nat>, rhs: seq<Symbol>) returns (i: nat)
    ensures i <= |rhs|
    ensures i == |rhs| <==> forall k | 0 <= k < |rhs| :: rhs[k].Terminal? && rhs[k].index in lam
  {
    i := 0;
    while i < |rhs|
      invariant i <= |rhs|
      invariant forall k | 0 <= k < i :: rhs[k].Terminal? && rhs[k].index in lam
    {
      if !rhs[i].Terminal? || rhs[i].index !in lam { break; }
      i := i + 1;
    }
  }

  lemma NoTerminalFlagged(g: Grammar, lam: set<nat>, rhs: seq<Symbol>)
    requires forall a | a in lam :: IsNonterminal(g, a)
    requires forall i | 0 <= i < |rhs| :: WfSymbol(g, rhs[i])
    ensures (forall k | 0 <= k < |rhs| :: rhs[k].Terminal? && rhs[k].index in lam) <==> rhs == []
  {
    if rhs != [] && rhs[0].Terminal? {
      assert WfSymbol(g, rhs[0]) && !IsNonterminal(g, rhs[0].index);
    }
  }

  method FindLambdas(g: Grammar) returns (lam: set<nat>)
    requires WfGrammar(g)
    ensures LambdaIsEmptyRule(g, lam)
  {
    lam := {};
    var progress := true;
    ghost var all := set a: nat | a < g.nsymbol && IsNonterminal(g, a);
    while progress
      invariant lam <= all
      invariant forall a | a in lam :: HasEmptyRule(g, a)
      invariant !progress ==> forall r | 0 <= r < |g.rules| && g.rules[r].rhs == [] :: g.rules[r].lhs in lam
      decreases all - lam, progress
    {
      progress := false;
      ghost var before := lam;
      for r := 0 to |g.rules|
        invariant before <= lam <= all
        invariant forall a | a in lam :: HasEmptyRule(g, a)
        invariant forall k | 0 <= k < r && g.rules[k].rhs == [] :: g.rules[k].lhs in lam
        invariant progress <==> lam != before
      {
        var rule := g.rules[r];
        assert WfRule(g, rule);
        if rule.lhs in lam { continue; }
        var i := LambdaScan(lam, rule.rhs);
        NoTerminalFlagged(g, lam, rule.rhs);
        if i == |rule.rhs| {
          assert g.rules[r].rhs == [];
          lam := lam + {rule.lhs};
          progress := true;
        }
      }
    }
  }

  /** One rule's turn in one pass over the rules: the front of its right-hand side joins the
      first set of its left-hand side, whatever order the insertions are made in. */
  method AddFirstsOfRule(g: Grammar, lam: set<nat>, first0: First, r: nat) returns (first: First, progress: bool)
    requires WfGrammar(g) && Domain(g, first0) && r < |g.rules|
    ensures g.rules[r].lhs in first0
    ensures first == first0[g.rules[r].lhs := first0[g.rules[r].lhs] + FirstOf(lam, first0, g.rules[r].rhs)]
    ensures progress <==> first != first0
  {
    assert WfRule(g, g.rules[r]);
    var s1, rhs := g.rules[r].lhs, g.rules[r].rhs;
    var firstset := first0[s1];
    ghost var goal := firstset + FirstOf(lam, first0, rhs);
    progress := false;
    var i := 0;
    while i < |rhs|
      invariant 0 <= i <= |rhs|
      invariant first0[s1] <= firstset
      invariant goal == firstset + FirstOf(lam, first0, rhs[i..])
      invariant progress <==> firstset != first0[s1]
    {
      var s2 := rhs[i];
      assert WfSymbol(g, s2);
      assert rhs[i..][0] == s2 && rhs[i..][1..] == rhs[i + 1..];
      ghost var got := firstset;
      match s2 {
        case Terminal(t) =>
          progress := progress || t !in firstset;
          firstset := firstset + {t};
          assert t in firstset && (t in got ==> firstset == got);
          break;
        case Multiterminal(subs) =>
          var added;
          firstset, added := AddAll(firstset, subs);
          progress := progress || added;
          break;
        case Nonterminal(b) =>
          if b != s1 {
            progress := progress || !(first0[b] <= firstset);
            firstset := firstset + first0[b];
            assert first0[b] <= firstset && (first0[b] <= got ==> firstset == got);
          }
          assert firstset == got + first0[b];
          if b !in lam { break; }
      }
      i := i + 1;
    }
    first := first0[s1 := firstset];
    assert first[s1] == goal;
    assert first0 == first0[s1 := first0[s1]];
  }

  lemma {:induction false} FirstOfMonotone(lam: set<nat>, first: First, other: First, syms: seq<Symbol>)
    requires Below(first, other)
    ensures FirstOf(lam, first, syms) <= FirstOf(lam, other, syms)
  {
    if syms != [] {
      FirstOfMonotone(lam, first, other, syms[1..]);
    }
  }

  lemma {:induction false} FirstOfTerminals(g: Grammar, lam: set<nat>, first: First, syms: seq<Symbol>)
    requires Domain(g, first)
    requires forall i | 0 <= i < |syms| :: WfSymbol(g, syms[i])
    ensures forall t | t in FirstOf(lam, first, syms) :: t < g.nterminal
  {
    if syms != [] {
      assert WfSymbol(g, syms[0]);
      FirstOfTerminals(g, lam, first, syms[1..]);
    }
  }

  lemma RuleTurn(g: Grammar, lam: set<nat>, first0: First, r: nat, first: First)
    requires WfGrammar(g) && r < |g.rules| && Domain(g, first0) && BelowSolutions(g, lam, first0)
    requires g.rules[r].lhs in first0
    requires first == first0[g.rules[r].lhs := first0[g.rules[r].lhs] + FirstOf(lam, first0, g.rules[r].rhs)]
    ensures Domain(g, first) && BelowSolutions(g, lam, first) && Below(first0, first)
    ensures first == first0 ==> RuleSatisfied(g, lam, first, r)
  {
    assert WfRule(g, g.rules[r]);
    FirstOfTerminals(g, lam, first0, g.rules[r].rhs);
    forall other | Solution(g, lam, other) ensures Below(first, other) {
      assert Below(first0, other);
      FirstOfMonotone(lam, first0, other, g.rules[r].rhs);
      assert RuleSatisfied(g, lam, other, r);
    }
    if first == first0 {
      assert first[g.rules[r].lhs] == first0[g.rules[r].lhs];
    }
  }

  ghost function Missing(g: Grammar, first: First): set<(nat, nat)> {
    set a: nat, t: nat |
      a < g.nsymbol && IsNonterminal(g, a) && t < g.nterminal && (a !in first || t !in first[a]) :: (a, t)
  }

  lemma ProgressShrinks(g: Grammar, before: First, after: First)
    requires Domain(g, before) && Domain(g, after) && Below(before, after) && before != after
    ensures Missing(g, after) < Missing(g, before)
  {
    var a :| a in before && before[a] != after[a];
    var t :| t in after[a] && t !in before[a];
    assert (a, t) in Missing(g, before) && (a, t) !in Missing(g, after);
  }

  lemma BelowBetween(x: First, y: First, z: First)
    requires Below(x, y) && Below(y, z) && x.Keys == y.Keys == z.Keys
    ensures Below(x, z) && (x == z ==> x == y)
  {
    if x == z {
      forall a | a in x ensures x[a] == y[a] {}
    }
  }

  method FindFirstSets(g: Grammar) returns (lam: set<nat>, first: First)
    requires WfGrammar(g)
    ensures FirstSetsOf(g, lam, first)
  {
    lam := FindLambdas(g);
    first := map a: nat | a < g.nsymbol && IsNonterminal(g, a) :: {};
    var progress := true;
    while progress
      invariant Domain(g, first) && BelowSolutions(g, lam, first)
      invariant !progress ==> Solution(g, lam, first)
      decreases Missing(g, first), progress
    {
      progress := false;
      ghost var before := first;
      for r := 0 to |g.rules|
        invariant Domain(g, first) && BelowSolutions(g, lam, first) && Below(before, first)
        invariant progress <==> first != before
        invariant !progress ==> forall k | 0 <= k < r :: RuleSatisfied(g, lam, first, k)
      {
        ghost var last := first;
        var changed;
        first, changed := AddFirstsOfRule(g, lam, first, r);
        RuleTurn(g, lam, last, r, first);
        BelowBetween(before, last, first);
        progress := progress || changed;
      }
      if progress {
        ProgressShrinks(g, before, first);
      }
    }
  }
}
