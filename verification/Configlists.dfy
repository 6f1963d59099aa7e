/** The configuration list under construction: its closure, with the follow-set seeds and
    closure links recorded on the way. */
module Configlists {
  import opened Grammars
  import opened FirstSets
  import opened Automata

  /** `order` lists the configurations in order of insertion; the maps hold the fields of their
      records. */
  datatype Configlist = Configlist(order: seq<Item>, fws: map<Item, set<nat>>, fplp: map<Item, seq<Item>>)

  /** Pairs (source configuration, rule) that the scan has dealt with. */
  type Pairs = set<(Item, nat)>

  ghost predicate SeedFrom(g: Grammar, lam: set<nat>, first: First, p: Pairs, it: Item, t: nat) {
    exists src :: (src, it.rule) in p && Spawns(g, src, it) && t in FirstOf(lam, first, Rest(g, src))
  }

  ghost predicate SeedsOk(g: Grammar, lam: set<nat>, first: First, kernel: seq<Item>, eof: set<nat>, p: Pairs,
        it: Item, fws: set<nat>) {
    forall t :: t in fws <==> (it in kernel && t in eof) || SeedFrom(g, lam, first, p, it, t)
  }

  ghost predicate LinksOk(g: Grammar, lam: set<nat>, p: Pairs, src: Item, links: seq<Item>) {
    forall d :: d in links <==> (src, d.rule) in p && Spawns(g, src, d) && AllLambda(lam, Rest(g, src))
  }

  ghost predicate Shape(g: Grammar, kernel: seq<Item>, order: seq<Item>) {
    && Distinct(order)
    && (forall it | it in kernel :: it in order)
    && (forall it | it in order :: WfItem(g, it))
    && InClosedSupersets(g, ItemSet(kernel), ItemSet(order))
  }

  /** The state of the scan: exactly the pairs in `p` have left their mark on the list. */
  ghost predicate Scanned(g: Grammar, lam: set<nat>, first: First, kernel: seq<Item>, eof: set<nat>, c: Configlist,
        p: Pairs) {
    && (forall it :: it in c.fws <==> it in c.order)
    && (forall it :: it in c.fplp <==> it in c.order)
    && (forall pair | pair in p :: pair.0 in c.order)
    && (forall src, it: Item | (src, it.rule) in p && Spawns(g, src, it) :: it in c.order)
    && (forall it | it in c.order :: SeedsOk(g, lam, first, kernel, eof, p, it, c.fws[it]))
    && (forall it | it in c.order :: LinksOk(g, lam, p, it, c.fplp[it]))
  }

  ghost predicate SourceDone(g: Grammar, p: Pairs, src: Item) {
    forall it | Spawns(g, src, it) :: (src, it.rule) in p
  }

  /** The whole closure of `kernel`, with exact seeds and closure links. */
  ghost predicate ClosureOf(g: Grammar, lam: set<nat>, first: First, kernel: seq<Item>, eof: set<nat>, c: Configlist) {
    && Distinct(c.order)
    && (forall it | it in c.order :: WfItem(g, it))
    && IsClosure(g, ItemSet(kernel), ItemSet(c.order))
    && (forall it :: it in c.fws <==> it in c.order)
    && (forall it :: it in c.fplp <==> it in c.order)
    && (forall it, t | it in c.order :: t in c.fws[it] <==>
          (it in kernel && t in eof) || SeededBy(g, lam, first, c.order, it, t))
    && (forall it, d | it in c.order :: d in c.fplp[it] <==> Spawns(g, it, d) && AllLambda(lam, Rest(g, it)))
  }

  /** Add to a follow set whatever can start the rest of a rule; `all` says whether the scan
      came to the end of the rule. */
  method AddFollowers(g: Grammar, lam: set<nat>, first: First, fws0: set<nat>,
        rest: seq<Symbol>) returns (fws: set<nat>, all: bool)
    requires WfGrammar(g) && Domain(g, first)
    requires forall i | 0 <= i < |rest| :: WfSymbol(g, rest[i])
    ensures fws == fws0 + FirstOf(lam, first, rest)
    ensures all <==> AllLambda(lam, rest)
  {
    fws := fws0;
    var i := 0;
    while i < |rest|
      invariant 0 <= i <= |rest|
      invariant fws + FirstOf(lam, first, rest[i..]) == fws0 + FirstOf(lam, first, rest)
      invariant AllLambda(lam, rest[..i])
    {
      var xsp := rest[i];
      assert WfSymbol(g, xsp);
      assert rest[i..][0] == xsp && rest[i..][1..] == rest[i + 1..];
      match xsp {
        case Terminal(t) => fws := fws + {t}; break;
        case Multiterminal(subs) => var more; fws, more := AddAll(fws, subs); break;
        case Nonterminal(a) =>
          fws := fws + first[a];
          if a !in lam { break; }
      }
      i := i + 1;
    }
    all := i == |rest|;
    if all {
      assert rest[..i] == rest;
    } else {
      assert !SymbolLambda(lam, rest[i]);
    }
  }

  /** The configuration for rule `r` joins the list unless it is there already. */
  function AddConfig(c: Configlist, it: Item): Configlist {
    if it in c.order then c else Configlist(c.order + [it], c.fws[it := {}], c.fplp[it := []])
  }

  lemma AddConfigShape(g: Grammar, kernel: seq<Item>, c: Configlist, src: Item, it: Item)
    requires Shape(g, kernel, c.order) && src in c.order && Spawns(g, src, it)
    ensures Shape(g, kernel, AddConfig(c, it).order)
  {
    var c' := AddConfig(c, it);
    if it !in c.order {
      assert ItemSet(c'.order) == ItemSet(c.order) + {it};
      forall d: set<Item> | ItemSet(kernel) <= d && Closed(g, d) ensures ItemSet(c'.order) <= d {
        assert src in ItemSet(c.order);
        assert ItemSet(c.order) <= d;
      }
    }
  }

  lemma AddConfigScanned(g: Grammar, lam: set<nat>, first: First, kernel: seq<Item>, eof: set<nat>, c: Configlist,
        p: Pairs, it: Item)
    requires Scanned(g, lam, first, kernel, eof, c, p) && it !in kernel
    ensures Scanned(g, lam, first, kernel, eof, AddConfig(c, it), p)
  {
    if it !in c.order {
      assert SeedsOk(g, lam, first, kernel, eof, p, it, {});
      assert LinksOk(g, lam, p, it, []);
    }
  }

  /** Record what `src` gives to the configuration `it`. */
  function Feed(c: Configlist, src: Item, it: Item, fws: set<nat>, all: bool): Configlist
    requires src in c.fplp && it in c.fws
  {
    Configlist(c.order, c.fws[it := fws], if all then c.fplp[src := [it] + c.fplp[src]] else c.fplp)
  }

  lemma FeedSeeds(g: Grammar, lam: set<nat>, first: First, kernel: seq<Item>, eof: set<nat>, p: Pairs, src: Item,
        r: nat, i: Item, fws: set<nat>)
    requires SeedsOk(g, lam, first, kernel, eof, p, i, fws) && Spawns(g, src, Item(r, 0))
    ensures SeedsOk(g, lam, first, kernel, eof, p + {(src, r)}, i,
                    if i == Item(r, 0) then fws + FirstOf(lam, first, Rest(g, src)) else fws)
  {
    var p' := p + {(src, r)};
    forall t ensures SeedFrom(g, lam, first, p', i, t) <==>
        SeedFrom(g, lam, first, p, i, t) || (i == Item(r, 0) && t in FirstOf(lam, first, Rest(g, src)))
    {
      if i == Item(r, 0) && t in FirstOf(lam, first, Rest(g, src)) {
        assert (src, i.rule) in p';
      }
      if SeedFrom(g, lam, first, p, i, t) {
        var s :| (s, i.rule) in p && Spawns(g, s, i) && t in FirstOf(lam, first, Rest(g, s));
        assert (s, i.rule) in p';
      }
    }
  }

  lemma FeedLinks(g: Grammar, lam: set<nat>, p: Pairs, src: Item, r: nat, i: Item, links: seq<Item>)
    requires LinksOk(g, lam, p, i, links) && Spawns(g, src, Item(r, 0))
    ensures LinksOk(g, lam, p + {(src, r)}, i,
                    if i == src && AllLambda(lam, Rest(g, src)) then [Item(r, 0)] + links else links)
  {
  }

  lemma FeedScanned(g: Grammar, lam: set<nat>, first: First, kernel: seq<Item>, eof: set<nat>, c: Configlist, p: Pairs,
        src: Item, r: nat, fws: set<nat>)
    requires Scanned(g, lam, first, kernel, eof, c, p)
    requires src in c.order && Spawns(g, src, Item(r, 0)) && Item(r, 0) in c.order
    requires fws == c.fws[Item(r, 0)] + FirstOf(lam, first, Rest(g, src))
    ensures var c' := Feed(c, src, Item(r, 0), fws, AllLambda(lam, Rest(g, src)));
            Scanned(g, lam, first, kernel, eof, c', p + {(src, r)})
  {
    var it, p' := Item(r, 0), p + {(src, r)};
    var c' := Feed(c, src, it, fws, AllLambda(lam, Rest(g, src)));
    forall i | i in c.order
      ensures SeedsOk(g, lam, first, kernel, eof, p', i, c'.fws[i]) && LinksOk(g, lam, p', i, c'.fplp[i])
    {
      FeedSeeds(g, lam, first, kernel, eof, p, src, r, i, c.fws[i]);
      FeedLinks(g, lam, p, src, r, i, c.fplp[i]);
    }
    forall s, i: Item | (s, i.rule) in p' && Spawns(g, s, i) ensures i in c'.order {
      assert (s, i.rule) in p || i == it;
    }
  }

  lemma KernelIn(g: Grammar, kernel: seq<Item>, order: seq<Item>)
    requires Shape(g, kernel, order)
    ensures forall it | it in kernel :: it in order
  {
  }

  /** One rule of the nonterminal after the dot of `src`. */
  method SpawnRule(g: Grammar, lam: set<nat>, first: First, ghost kernel: seq<Item>, ghost eof: set<nat>,
        c0: Configlist, src: Item, r: nat, ghost p: Pairs)
    returns (c: Configlist)
    requires WfGrammar(g) && Domain(g, first) && src in c0.order && Spawns(g, src, Item(r, 0))
    requires Shape(g, kernel, c0.order) && Scanned(g, lam, first, kernel, eof, c0, p)
    ensures Shape(g, kernel, c.order) && Scanned(g, lam, first, kernel, eof, c, p + {(src, r)})
    ensures c0.order <= c.order
  {
    hide Shape;
    var it := Item(r, 0);
    assert WfRule(g, g.rules[src.rule]);
    AddConfigShape(g, kernel, c0, src, it);
    KernelIn(g, kernel, c0.order);
    if it !in c0.order {
      AddConfigScanned(g, lam, first, kernel, eof, c0, p, it);
    }
    c := AddConfig(c0, it);
    var fws, all := AddFollowers(g, lam, first, c.fws[it], g.rules[src.rule].rhs[src.dot + 1..]);
    FeedScanned(g, lam, first, kernel, eof, c, p, src, r, fws);
    c := Feed(c, src, it, fws, all);
  }

  /** All the rules of the nonterminal after the dot of `src`, the latest rule first. */
  method SpawnFrom(g: Grammar, lam: set<nat>, first: First, ghost kernel: seq<Item>, ghost eof: set<nat>,
        c0: Configlist, src: Item, ghost p0: Pairs)
    returns (c: Configlist, ghost p: Pairs)
    requires WfGrammar(g) && Domain(g, first) && src in c0.order
    requires Shape(g, kernel, c0.order) && Scanned(g, lam, first, kernel, eof, c0, p0)
    ensures Shape(g, kernel, c.order) && Scanned(g, lam, first, kernel, eof, c, p)
    ensures c0.order <= c.order && p0 <= p && SourceDone(g, p, src)
  {
    hide Scanned, Shape;
    c, p := c0, p0;
    var sp := Next(g, src);
    if sp.None? || !sp.value.Nonterminal? {
      return;
    }
    var r := |g.rules|;
    while r > 0
      invariant 0 <= r <= |g.rules|
      invariant c0.order <= c.order && p0 <= p && src in c.order
      invariant Shape(g, kernel, c.order) && Scanned(g, lam, first, kernel, eof, c, p)
      invariant forall k | r <= k < |g.rules| && g.rules[k].lhs == sp.value.index :: (src, k) in p
    {
      r := r - 1;
      if g.rules[r].lhs == sp.value.index {
        c := SpawnRule(g, lam, first, kernel, eof, c, src, r, p);
        p := p + {(src, r)};
      }
    }
  }

  lemma FinishClosure(g: Grammar, lam: set<nat>, first: First, kernel: seq<Item>, eof: set<nat>, c: Configlist,
                      p: Pairs)
    requires Shape(g, kernel, c.order) && Scanned(g, lam, first, kernel, eof, c, p)
    requires AllDone(g, p, c.order, |c.order|)
    ensures ClosureOf(g, lam, first, kernel, eof, c)
  {
    forall it, t | it in c.order
      ensures t in c.fws[it] <==> (it in kernel && t in eof) || SeededBy(g, lam, first, c.order, it, t)
    {
      assert SeedsOk(g, lam, first, kernel, eof, p, it, c.fws[it]);
      if SeededBy(g, lam, first, c.order, it, t) {
        var src :| src in c.order && Spawns(g, src, it) && t in FirstOf(lam, first, Rest(g, src));
        assert SourceDone(g, p, src);
      }
    }
    forall it, d | it in c.order
      ensures d in c.fplp[it] <==> Spawns(g, it, d) && AllLambda(lam, Rest(g, it))
    {
      assert LinksOk(g, lam, p, it, c.fplp[it]) && SourceDone(g, p, it);
    }
  }

  method Closure(g: Grammar, lam: set<nat>, first: First, kernel: seq<Item>, eof: set<nat>) returns (c: Configlist)
    requires WfGrammar(g) && Domain(g, first)
    requires Distinct(kernel) && forall it | it in kernel :: WfItem(g, it)
    ensures ClosureOf(g, lam, first, kernel, eof, c)
    ensures Distinct(c.order) && forall it | it in c.order :: WfItem(g, it)
  {
    hide Scanned;
    c := Configlist(kernel, map it | it in kernel :: eof, map it | it in kernel :: []);
    ghost var p: Pairs := {};
    StartScan(g, lam, first, kernel, eof);
    var n := 0;
    while n < |c.order|
      invariant 0 <= n <= |c.order|
      invariant Shape(g, kernel, c.order) && Scanned(g, lam, first, kernel, eof, c, p)
      invariant AllDone(g, p, c.order, n)
      decreases AllItems(g) - ItemSet(c.order[..n])
    {
      assert WfItem(g, c.order[n]);
      ghost var c0 := c;
      ghost var p0 := p;
      c, p := SpawnFrom(g, lam, first, kernel, eof, c, c.order[n], p);
      NextSource(g, c0.order, c.order, n);
      StillDone(g, p0, c0.order, p, c.order, n);
      n := n + 1;
    }
    FinishClosure(g, lam, first, kernel, eof, c, p);
  }

  ghost predicate AllDone(g: Grammar, p: Pairs, order: seq<Item>, n: nat) {
    n <= |order| && forall k | 0 <= k < n :: SourceDone(g, p, order[k])
  }

  lemma StillDone(g: Grammar, p0: Pairs, order0: seq<Item>, p: Pairs, order: seq<Item>, n: nat)
    requires AllDone(g, p0, order0, n) && p0 <= p && order0 <= order && n < |order0| && SourceDone(g, p, order0[n])
    ensures AllDone(g, p, order, n + 1)
  {
    forall k | 0 <= k < n + 1 ensures SourceDone(g, p, order[k]) {
      assert order[k] == order0[k];
      if k < n { assert SourceDone(g, p0, order0[k]); }
    }
  }

  lemma StartScan(g: Grammar, lam: set<nat>, first: First, kernel: seq<Item>, eof: set<nat>)
    requires Distinct(kernel) && forall it | it in kernel :: WfItem(g, it)
    ensures Shape(g, kernel, kernel)
    ensures var c := Configlist(kernel, map it | it in kernel :: eof, map it | it in kernel :: []);
            Scanned(g, lam, first, kernel, eof, c, {})
  {
  }

  lemma NextSource(g: Grammar, was: seq<Item>, order: seq<Item>, n: nat)
    requires was <= order && n < |was| && Distinct(was) && WfItem(g, was[n])
    ensures AllItems(g) - ItemSet(order[..n + 1]) < AllItems(g) - ItemSet(was[..n])
  {
    assert order[..n + 1] == was[..n] + [was[n]];
    assert was[n] in AllItems(g) - ItemSet(was[..n]);
    assert was[n] in ItemSet(order[..n + 1]);
  }
}
