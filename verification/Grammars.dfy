/** Context-free grammars as the parser generator sees them once the grammar file has
    been read, parse trees over them, and the sentences a grammar generates.

    A symbol number below `nterminal` is a terminal and number 0 is the end of input;
    the numbers from `nterminal` up to `nsymbol` are nonterminals.  A right-hand side may
    also hold a multi-terminal, which stands for any one of the terminals it lists.  */
module Grammars {

  datatype Option<+T> = None | Some(value: T)

  datatype Symbol = Terminal(index: nat) | Nonterminal(index: nat) | Multiterminal(subs: seq<nat>)

  datatype Associativity = LeftAssoc | RightAssoc | NoneAssoc | UnknownAssoc

  datatype Rule = Rule(lhs: nat, rhs: seq<Symbol>, precsym: Option<nat>)

  datatype Grammar = Grammar(
    nterminal: nat,
    nsymbol: nat,
    rules: seq<Rule>,
    start: nat,
    errsym: nat,
    prec: seq<int>,
    assoc: seq<Associativity>,
    fallback: seq<nat>,
    wildcard: Option<nat>)

  /** Symbol number `s` is one of the symbols that `x` stands for. */
  predicate Spells(x: Symbol, s: nat) {
    match x
    case Terminal(i) => s == i
    case Nonterminal(i) => s == i
    case Multiterminal(subs) => s in subs
  }

  /** The symbol numbers of `form` spell the symbols of `rhs` one by one. */
  predicate SpellsAll(rhs: seq<Symbol>, form: seq<nat>) {
    |form| == |rhs| && forall i | 0 <= i < |rhs| :: Spells(rhs[i], form[i])
  }

  predicate WfSymbol(g: Grammar, x: Symbol) {
    match x
    case Terminal(i) => 0 < i < g.nterminal
    case Nonterminal(i) => g.nterminal <= i < g.nsymbol
    case Multiterminal(subs) => |subs| > 0 && forall k | 0 <= k < |subs| :: 0 < subs[k] < g.nterminal
  }

  predicate WfRule(g: Grammar, r: Rule) {
    && g.nterminal <= r.lhs < g.nsymbol
    && (forall i | 0 <= i < |r.rhs| :: WfSymbol(g, r.rhs[i]))
    && (r.precsym.Some? ==> r.precsym.value < g.nterminal)
  }

  /** What the grammar-file reader hands over: symbols in range, a terminal that has a
      precedence also has an associativity, the start symbol has a rule and stands on no
      right-hand side. */
  ghost predicate WfGrammar(g: Grammar) {
    && 0 < g.nterminal <= g.start < g.nsymbol
    && g.nterminal <= g.errsym < g.nsymbol
    && (forall r | 0 <= r < |g.rules| :: WfRule(g, g.rules[r]))
    && |g.prec| == |g.assoc| == |g.fallback| == g.nterminal
    && (forall t | 0 <= t < g.nterminal && g.prec[t] >= 0 :: !g.assoc[t].UnknownAssoc?)
    && (forall t | 0 <= t < g.nterminal :: g.fallback[t] < g.nterminal)
    && (g.wildcard.Some? ==> 0 < g.wildcard.value < g.nterminal)
    && (exists r :: 0 <= r < |g.rules| && g.rules[r].lhs == g.start)
    && (forall r, i | 0 <= r < |g.rules| && 0 <= i < |g.rules[r].rhs| :: g.rules[r].rhs[i] != Nonterminal(g.start))
  }

  predicate Terminals(g: Grammar, w: seq<nat>) {
    forall i | 0 <= i < |w| :: w[i] < g.nterminal
  }

  // ----- Parse trees -----

  /** A parse tree; its leaves may be terminals or nonterminals, so its yield is a
      sentential form. */
  datatype Tree = Leaf(sym: nat) | Node(rule: nat, kids: seq<Tree>)

  function Root(g: Grammar, t: Tree): nat {
    match t
    case Leaf(s) => s
    case Node(r, _) => if r < |g.rules| then g.rules[r].lhs else 0
  }

  function Roots(g: Grammar, f: seq<Tree>): (form: seq<nat>)
    ensures |form| == |f|
    ensures forall i | 0 <= i < |f| :: form[i] == Root(g, f[i])
  {
    seq(|f|, i requires 0 <= i < |f| => Root(g, f[i]))
  }

  ghost predicate WfTree(g: Grammar, t: Tree) {
    match t
    case Leaf(s) => s < g.nsymbol
    case Node(r, kids) =>
      && r < |g.rules|
      && SpellsAll(g.rules[r].rhs, Roots(g, kids))
      && forall i | 0 <= i < |kids| :: WfTree(g, kids[i])
  }

  ghost predicate WfForest(g: Grammar, f: seq<Tree>) {
    forall i | 0 <= i < |f| :: WfTree(g, f[i])
  }

  ghost function Yield(t: Tree): seq<nat>
    decreases t, 0
  {
    match t
    case Leaf(s) => [s]
    case Node(_, kids) => YieldAll(kids)
  }

  ghost function YieldAll(f: seq<Tree>): seq<nat>
    decreases f, 1
  {
    if f == [] then [] else Yield(f[0]) + YieldAll(f[1..])
  }

  lemma {:induction false} YieldAllConcat(a: seq<Tree>, b: seq<Tree>)
    ensures YieldAll(a + b) == YieldAll(a) + YieldAll(b)
  {
    if a == [] {
      assert a + b == b;
    } else {
      YieldAllConcat(a[1..], b);
      assert (a + b)[1..] == a[1..] + b;
    }
  }

  function Leaves(form: seq<nat>): (f: seq<Tree>)
    ensures |f| == |form| && forall i | 0 <= i < |form| :: f[i] == Leaf(form[i])
  {
    seq(|form|, i requires 0 <= i < |form| => Leaf(form[i]))
  }

  lemma {:induction false} YieldOfLeaves(form: seq<nat>)
    ensures YieldAll(Leaves(form)) == form
  {
    if form != [] {
      YieldOfLeaves(form[1..]);
      assert Leaves(form)[1..] == Leaves(form[1..]);
    }
  }

  /** A complete parse of `w`: a tree for the start symbol all of whose leaves are terminals. */
  ghost predicate ParseOf(g: Grammar, t: Tree, w: seq<nat>) {
    t.Node? && WfTree(g, t) && Root(g, t) == g.start && Yield(t) == w && Terminals(g, w)
  }

  ghost predicate Sentence(g: Grammar, w: seq<nat>) {
    exists t :: ParseOf(g, t, w)
  }
}
