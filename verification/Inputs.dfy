/** The grammars of the worked examples are inputs for which the generator makes a parser. */
module Inputs {
  import opened Grammars
  import opened Automata
  import opened StateBuilder
  import opened ItemSort
  import opened Compression
  import opened Machines
  import opened Generate
  import opened OneRules
  import opened Instances
  import opened Precedences
  import opened Wildcards

  /** What `Generate` asks of a grammar. */
  ghost predicate Input(g: Grammar) {
    WfGrammar(g) && Small(g) && ShortRules(g) && FallbackAcyclic(g)
  }

  ghost predicate Tiny(g: Grammar) {
    && |g.rules| <= 9 && g.nterminal <= 9
    && forall r | 0 <= r < |g.rules| :: |g.rules[r].rhs| < 9 && Plain(g.rules[r].rhs)
  }

  ghost predicate Plain(rhs: seq<Symbol>) {
    forall i | 0 <= i < |rhs| :: !rhs[i].Multiterminal?
  }

  ghost function Dots(r: nat, n: nat): (s: set<Item>)
    ensures forall d: nat | d < n :: Item(r, d) in s
    ensures |s| <= n
  {
    if n == 0 then {} else Dots(r, n - 1) + {Item(r, n - 1)}
  }

  lemma {:induction false} FewItemsBelow(g: Grammar, n: nat)
    requires Tiny(g) && n <= |g.rules|
    ensures |ItemsBelow(g, n)| <= 9 * n
  {
    hide Tiny, WfItem, ItemsOfRule;
    if n > 0 {
      FewItemsBelow(g, n - 1);
      FewItemsOfRule(g, n - 1);
      UnionSize(ItemsBelow(g, n - 1), ItemsOfRule(g, n - 1));
    }
  }

  lemma FewItemsOfRule(g: Grammar, r: nat)
    requires Tiny(g) && r < |g.rules|
    ensures |ItemsOfRule(g, r)| <= 9
  {
    hide Plain;
    SubsetCount(ItemsOfRule(g, r), Dots(r, 9));
  }

  lemma UnionSize(s: set<Item>, t: set<Item>)
    ensures |s + t| <= |s| + |t|
  {
    assert s + t == s + (t - s);
    SubsetCount(t - s, t);
  }

  lemma {:induction false} PlainIsNarrow(rhs: seq<Symbol>)
    requires Plain(rhs)
    ensures WidestSymbol(rhs) == 1
  {
    if rhs != [] { PlainIsNarrow(rhs[1..]); }
  }

  lemma {:induction false} TinyIsNarrow(rules: seq<Rule>)
    requires forall r | 0 <= r < |rules| :: Plain(rules[r].rhs)
    ensures Widest(rules) == 1
  {
    if rules != [] {
      PlainIsNarrow(rules[0].rhs);
      TinyIsNarrow(rules[1..]);
    }
  }

  lemma Product(n: nat, w: nat)
    requires n <= 81 && w <= 10
    ensures n * w <= 810
  {
  }

  lemma TinyIsInput(g: Grammar)
    requires Tiny(g) && WfGrammar(g) && FallbackAcyclic(g)
    ensures Input(g)
  {
    hide WfGrammar, FallbackAcyclic, WfItem;
    FewItemsBelow(g, |g.rules|);
    TinyIsNarrow(g.rules);
    Product(|AllItems(g)|, Widest(g.rules) + g.nterminal);
  }

  /** Without a fallback nothing has to end. */
  lemma NoFallbackIsInput(g: Grammar)
    requires Tiny(g) && WfGrammar(g)
    requires forall t | 0 <= t < |g.fallback| :: g.fallback[t] == 0
    ensures Input(g)
  {
    hide Tiny;
    assert FallbackAcyclic(g);
    TinyIsInput(g);
  }

  lemma FallingIsInput()
    ensures Input(FallingGrammar())
  {
    hide WfGrammar, Input;
    var g := FallingGrammar();
    FallingIsWf();
    assert ChainEnds(g.fallback, 2, 3);
    assert FallbackAcyclic(g);
    TinyIsInput(g);
  }

  /** Every grammar of a worked example is a possible input, so that `Generate` makes the parsers
      that the examples speak of. */
  lemma ExamplesAreInputs()
    ensures Input(SingleGrammar()) && Input(RecoveringGrammar())
    ensures Input(StealingGrammar()) && Input(FallingGrammar()) && Input(NullableGrammar())
    ensures Input(OperatorGrammar()) && Input(AnyGrammar())
  {
    hide WfGrammar, Input;
    SingleIsOneRule();
    RecoveringIsOneRule();
    OneRuleIsWf(SingleGrammar());
    OneRuleIsWf(RecoveringGrammar());
    StealingIsWf();
    NullableIsWf();
    OperatorIsWf();
    AnyIsWf();
    NoFallbackIsInput(SingleGrammar());
    NoFallbackIsInput(RecoveringGrammar());
    NoFallbackIsInput(StealingGrammar());
    NoFallbackIsInput(NullableGrammar());
    NoFallbackIsInput(OperatorGrammar());
    NoFallbackIsInput(AnyGrammar());
    FallingIsInput();
  }

  lemma OneRuleIsWf(g: Grammar)
    requires OneRule(g)
    ensures WfGrammar(g)
  {
  }
}
