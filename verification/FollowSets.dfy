/** Propagation links and follow sets of the configurations. */
module FollowSets {
  import opened Grammars
  import opened FirstSets
  import opened Automata

  type Links = map<Cfg, seq<Cfg>>
  type Follow = map<Cfg, set<nat>>

  // ----- FindLinks -----

  ghost predicate AllCfgs<T>(a: Automaton, m: map<Cfg, T>) {
    forall c :: c in m <==> IsCfg(a, c)
  }

  /** No link is lost or invented: the forward links are exactly those from an item to the item
      advanced over a symbol in the goto state, and those from an item to an item of its closure
      when the rest of the rule is lambda. */
  ghost predicate ExactLinks(g: Grammar, lam: set<nat>, a: Automaton, fplp: Links) {
    && AllCfgs(a, fplp)
    && forall c, d | c in fplp :: d in fplp[c] <==> ClosureLink(g, lam, c, d) || ShiftLink(g, a, c, d)
  }

  method AddForward(fplp0: Links, cfp: Cfg, back: seq<Cfg>) returns (fplp: Links)
    requires forall l | l in back :: l in fplp0
    ensures fplp.Keys == fplp0.Keys
    ensures forall c, d | c in fplp :: d in fplp[c] <==> d in fplp0[c] || (d == cfp && c in back)
  {
    fplp := fplp0;
    for k := 0 to |back|
      invariant fplp.Keys == fplp0.Keys
      invariant forall c, d | c in fplp :: d in fplp[c] <==> d in fplp0[c] || (d == cfp && c in back[..k])
    {
      assert back[..k + 1] == back[..k] + [back[k]];
      fplp := fplp[back[k] := [cfp] + fplp[back[k]]];
    }
    assert back[..|back|] == back;
  }

  ghost predicate Forwarded(a: Automaton, fplp: Links, seen: set<Cfg>) {
    && fplp.Keys == a.fplp.Keys
    && forall c, d | c in fplp :: d in fplp[c] <==> d in a.fplp[c] || (d in seen && d in a.bplp && c in a.bplp[d])
  }

  lemma BackLinksAreCfgs(g: Grammar, lam: set<nat>, first: First, a: Automaton)
    requires Partial(g, lam, first, a)
    ensures AllCfgs(a, a.fplp) && AllCfgs(a, a.bplp) && AllCfgs(a, a.fws)
    ensures forall d, l | d in a.bplp && l in a.bplp[d] :: l in a.fplp
  {
    hide StateOk, Placed, ShiftOk, Seeded, ClosureLink, Leads;
    forall d, l | d in a.bplp && l in a.bplp[d] ensures l in a.fplp {
      assert IsCfg(a, d) && ConfigOk(g, lam, first, a, d);
      assert ShiftLink(g, a, l, d);
    }
  }

  lemma BackLinksExact(g: Grammar, lam: set<nat>, first: First, a: Automaton, c: Cfg, d: Cfg)
    requires Collection(g, lam, first, a) && IsCfg(a, c)
    ensures d in a.bplp && c in a.bplp[d] <==> ShiftLink(g, a, c, d)
  {
    hide StateOk, Placed, ShiftOk, Seeded, ClosureLink, Leads;
    if d in a.bplp && c in a.bplp[d] {
      assert IsCfg(a, d) && ConfigOk(g, lam, first, a, d);
    }
    if ShiftLink(g, a, c, d) {
      var x := Next(g, c.item).value;
      assert Done(g, a, c.state);
      var j: nat :| DoneVia(g, a, c.state, x, j);
      LeadsUnique(g, lam, first, a, c.state, x, j, d.state);
      assert d == Cfg(j, Advance(c.item)) && c == Cfg(c.state, c.item);
    }
  }

  lemma ForwardedAll(g: Grammar, lam: set<nat>, first: First, a: Automaton, fplp: Links, seen: set<Cfg>)
    requires Collection(g, lam, first, a) && Forwarded(a, fplp, seen) && forall c | IsCfg(a, c) :: c in seen
    ensures ExactLinks(g, lam, a, fplp)
  {
    hide Partial, Collection, ClosureLink, ShiftLink;
    CollectionIsPartial(g, lam, first, a);
    BackLinksAreCfgs(g, lam, first, a);
    forall c, d | c in fplp ensures d in fplp[c] <==> ClosureLink(g, lam, c, d) || ShiftLink(g, a, c, d) {
      ClosureLinksExact(g, lam, first, a, c);
      BackLinksExact(g, lam, first, a, c, d);
      assert d in a.bplp && c in a.bplp[d] ==> d in seen;
    }
  }

  lemma ClosureLinksExact(g: Grammar, lam: set<nat>, first: First, a: Automaton, c: Cfg)
    requires Partial(g, lam, first, a) && IsCfg(a, c)
    ensures c in a.fplp && forall d :: d in a.fplp[c] <==> ClosureLink(g, lam, c, d)
  {
    hide StateOk, Placed, ShiftOk, Seeded, ClosureLink, ShiftLink;
    assert ConfigOk(g, lam, first, a, c);
  }

  lemma ForwardStep(a: Automaton, f0: Links, f: Links, seen: set<Cfg>, cfp: Cfg)
    requires Forwarded(a, f0, seen) && f.Keys == f0.Keys && cfp in a.bplp
    requires forall c, d | c in f :: d in f[c] <==> d in f0[c] || (d == cfp && c in a.bplp[cfp])
    ensures Forwarded(a, f, seen + {cfp})
  {
  }

  ghost predicate SeenBelow(a: Automaton, seen: set<Cfg>, i: nat) {
    forall c | IsCfg(a, c) && c.state < i :: c in seen
  }

  ghost predicate SeenPrefix(i: nat, items: seq<Item>, seen: set<Cfg>, k: nat) {
    k <= |items| && forall j | 0 <= j < k :: Cfg(i, items[j]) in seen
  }

  lemma SeenState(a: Automaton, seen: set<Cfg>, i: nat)
    requires SeenBelow(a, seen, i) && i < |a.states|
    requires SeenPrefix(i, a.states[i].items, seen, |a.states[i].items|)
    ensures SeenBelow(a, seen, i + 1)
  {
    forall c | IsCfg(a, c) && c.state == i ensures c in seen {
      var j :| 0 <= j < |a.states[i].items| && a.states[i].items[j] == c.item;
      assert Cfg(i, a.states[i].items[j]) == c;
    }
  }

  method FindLinks(g: Grammar, ghost lam: set<nat>, ghost first: First, a: Automaton) returns (fplp: Links)
    requires Collection(g, lam, first, a)
    ensures ExactLinks(g, lam, a, fplp)
  {
    hide Partial, Collection, Forwarded, SeenBelow, SeenPrefix;
    CollectionIsPartial(g, lam, first, a);
    BackLinksAreCfgs(g, lam, first, a);
    fplp := a.fplp;
    ghost var seen: set<Cfg> := {};
    NothingForwarded(a);
    for i := 0 to |a.states|
      invariant Forwarded(a, fplp, seen) && fplp.Keys == a.fplp.Keys
      invariant SeenBelow(a, seen, i)
    {
      var items := a.states[i].items;
      NoneOfState(i, items, seen);
      for k := 0 to |items|
        invariant Forwarded(a, fplp, seen) && fplp.Keys == a.fplp.Keys
        invariant SeenBelow(a, seen, i) && SeenPrefix(i, items, seen, k)
      {
        var cfp := Cfg(i, items[k]);
        assert IsCfg(a, cfp);
        ghost var before := fplp;
        fplp := AddForward(fplp, cfp, a.bplp[cfp]);
        ForwardStep(a, before, fplp, seen, cfp);
        SeenMore(a, seen, i, items, k);
        seen := seen + {cfp};
      }
      SeenState(a, seen, i);
    }
    EverythingSeen(a, seen);
    ForwardedAll(g, lam, first, a, fplp, seen);
  }

  lemma NothingForwarded(a: Automaton)
    ensures Forwarded(a, a.fplp, {}) && SeenBelow(a, {}, 0)
  {
  }

  lemma SeenMore(a: Automaton, seen: set<Cfg>, i: nat, items: seq<Item>, k: nat)
    requires SeenBelow(a, seen, i) && SeenPrefix(i, items, seen, k) && k < |items|
    ensures SeenBelow(a, seen + {Cfg(i, items[k])}, i) && SeenPrefix(i, items, seen + {Cfg(i, items[k])}, k + 1)
  {
  }

  lemma NoneOfState(i: nat, items: seq<Item>, seen: set<Cfg>)
    ensures SeenPrefix(i, items, seen, 0)
  {
  }

  lemma EverythingSeen(a: Automaton, seen: set<Cfg>)
    requires SeenBelow(a, seen, |a.states|)
    ensures forall c | IsCfg(a, c) :: c in seen
  {
  }

  lemma CollectionIsPartial(g: Grammar, lam: set<nat>, first: First, a: Automaton)
    requires Collection(g, lam, first, a)
    ensures Partial(g, lam, first, a) && |a.states| > 0
  {
  }

  // ----- FindFollowSets -----

  ghost predicate Seeds(a: Automaton, f: Follow) {
    AllCfgs(a, f) && forall c | c in f :: c in a.fws && a.fws[c] <= f[c]
  }

  ghost predicate Propagated(f: Follow, fplp: Links, c: Cfg) {
    c in f && c in fplp && forall d | d in fplp[c] :: d in f && f[c] <= f[d]
  }

  /** The follow sets contain their seeds and flow along every link. */
  ghost predicate FollowSolution(a: Automaton, fplp: Links, f: Follow) {
    Seeds(a, f) && forall c | c in f :: Propagated(f, fplp, c)
  }

  ghost predicate FollowBelow(f: Follow, h: Follow) {
    forall c | c in f :: c in h && f[c] <= h[c]
  }

  ghost predicate BelowFollowSolutions(a: Automaton, fplp: Links, f: Follow) {
    forall h | FollowSolution(a, fplp, h) :: FollowBelow(f, h)
  }

  ghost predicate LeastFollow(a: Automaton, fplp: Links, f: Follow) {
    FollowSolution(a, fplp, f) && BelowFollowSolutions(a, fplp, f)
  }

  ghost predicate FollowBounded(n: nat, f: Follow) {
    forall c, t | c in f && t in f[c] :: t < n
  }

  /** The state of the iteration: a complete configuration has passed on its whole set. */
  ghost predicate Iterating(n: nat, a: Automaton, fplp: Links, f: Follow, complete: set<Cfg>) {
    && Seeds(a, f) && FollowBounded(n, f) && BelowFollowSolutions(a, fplp, f)
    && forall c | c in complete :: Propagated(f, fplp, c)
  }

  method Push(f0: Follow, complete0: set<Cfg>, links: seq<Cfg>, cfp: Cfg) returns (f: Follow, complete: set<Cfg>,
        progress: bool)
    requires cfp in f0 && forall d | d in links :: d in f0
    ensures f.Keys == f0.Keys
    ensures forall c | c in f0 :: f[c] == if c in links then f0[c] + f0[cfp] else f0[c]
    ensures forall c :: c in complete <==> c == cfp || (c in complete0 && (c in f0 ==> f[c] == f0[c]))
    ensures progress <==> f != f0
  {
    f, complete, progress := f0, complete0, false;
    for k := 0 to |links|
      invariant f.Keys == f0.Keys && f[cfp] == f0[cfp]
      invariant forall c | c in f0 :: f[c] == if c in links[..k] then f0[c] + f0[cfp] else f0[c]
      invariant forall c :: c in complete <==> c in complete0 && (c in f0 ==> f[c] == f0[c])
      invariant progress <==> exists c :: c in f0 && f[c] != f0[c]
    {
      assert links[..k + 1] == links[..k] + [links[k]];
      var d := links[k];
      ghost var was := f;
      var change := !(f[cfp] <= f[d]);
      f := f[d := f[d] + f[cfp]];
      if change {
        complete := complete - {d};
        progress := true;
        assert f[d] != f0[d];
      } else {
        assert f[d] == was[d];
        assert f == was;
      }
    }
    assert links[..|links|] == links;
    complete := complete + {cfp};
    if !progress {
      assert f == f0;
    }
  }

  lemma PushKeeps(n: nat, a: Automaton, fplp: Links, f0: Follow, complete0: set<Cfg>, cfp: Cfg, f: Follow,
        complete: set<Cfg>)
    requires Iterating(n, a, fplp, f0, complete0) && cfp in f0 && cfp in fplp
    requires forall d | d in fplp[cfp] :: d in f0
    requires f.Keys == f0.Keys
    requires forall c | c in f0 :: f[c] == if c in fplp[cfp] then f0[c] + f0[cfp] else f0[c]
    requires forall c :: c in complete <==> c == cfp || (c in complete0 && (c in f0 ==> f[c] == f0[c]))
    ensures Iterating(n, a, fplp, f, complete) && FollowBelow(f0, f)
  {
    forall c | c in complete ensures Propagated(f, fplp, c) {
      if c != cfp {
        assert Propagated(f0, fplp, c);
      }
    }
    forall h | FollowSolution(a, fplp, h) ensures FollowBelow(f, h) {
      assert FollowBelow(f0, h);
      assert Propagated(h, fplp, cfp);
    }
  }

  ghost function Unfilled(n: nat, f: Follow): set<(Cfg, nat)> {
    set c, t: nat | c in f && t < n && t !in f[c] :: (c, t)
  }

  lemma FillShrinks(n: nat, f: Follow, h: Follow)
    requires f.Keys == h.Keys && FollowBelow(f, h) && f != h && FollowBounded(n, h)
    ensures Unfilled(n, h) < Unfilled(n, f)
  {
    var c :| c in f && f[c] != h[c];
    var t :| t in h[c] && t !in f[c];
    assert (c, t) in Unfilled(n, f) && (c, t) !in Unfilled(n, h);
  }

  lemma BelowChain(f: Follow, h: Follow, k: Follow)
    requires f.Keys == h.Keys == k.Keys && FollowBelow(f, h) && FollowBelow(h, k)
    ensures FollowBelow(f, k) && (f == k ==> f == h)
  {
    if f == k {
      forall c | c in f ensures f[c] == h[c] {}
    }
  }

  /** One configuration's turn. */
  method Visit(n: nat, a: Automaton, fplp: Links, f0: Follow, complete0: set<Cfg>, cfp: Cfg) returns (f: Follow,
        complete: set<Cfg>, progress: bool)
    requires Iterating(n, a, fplp, f0, complete0) && IsCfg(a, cfp)
    requires AllCfgs(a, fplp) && forall c, d | c in fplp && d in fplp[c] :: IsCfg(a, d)
    ensures Iterating(n, a, fplp, f, complete)
    ensures FollowBelow(f0, f) && f.Keys == f0.Keys && (progress <==> f != f0)
    ensures cfp in complete && (!progress ==> complete0 <= complete)
  {
    hide BelowFollowSolutions, FollowBounded;
    if cfp in complete0 { return f0, complete0, false; }
    f, complete, progress := Push(f0, complete0, fplp[cfp], cfp);
    PushKeeps(n, a, fplp, f0, complete0, cfp, f, complete);
  }

  /** One pass over all configurations. */
  method Pass(n: nat, a: Automaton, fplp: Links, f0: Follow, complete0: set<Cfg>) returns (f: Follow,
        complete: set<Cfg>, progress: bool)
    requires Iterating(n, a, fplp, f0, complete0)
    requires AllCfgs(a, fplp) && forall c, d | c in fplp && d in fplp[c] :: IsCfg(a, d)
    ensures Iterating(n, a, fplp, f, complete)
    ensures FollowBelow(f0, f) && f.Keys == f0.Keys && (progress <==> f != f0)
    ensures !progress ==> forall c | IsCfg(a, c) :: c in complete
  {
    hide Iterating;
    f, complete, progress := f0, complete0, false;
    for i := 0 to |a.states|
      invariant Iterating(n, a, fplp, f, complete)
      invariant FollowBelow(f0, f) && f.Keys == f0.Keys && (progress <==> f != f0)
      invariant !progress ==> forall c | IsCfg(a, c) && c.state < i :: c in complete
    {
      var items := a.states[i].items;
      for k := 0 to |items|
        invariant Iterating(n, a, fplp, f, complete)
        invariant FollowBelow(f0, f) && f.Keys == f0.Keys && (progress <==> f != f0)
        invariant !progress ==> forall c | IsCfg(a, c) && c.state < i :: c in complete
        invariant !progress ==> forall j | 0 <= j < k :: Cfg(i, items[j]) in complete
      {
        ghost var last := f;
        var changed;
        f, complete, changed := Visit(n, a, fplp, f, complete, Cfg(i, items[k]));
        BelowChain(f0, last, f);
        progress := progress || changed;
      }
      if !progress {
        forall c | IsCfg(a, c) && c.state == i ensures c in complete {
          var j :| 0 <= j < |items| && items[j] == c.item;
          assert Cfg(i, items[j]) == c;
        }
      }
    }
  }

  method FindFollowSets(n: nat, a: Automaton, fplp: Links) returns (f: Follow)
    requires AllCfgs(a, a.fws) && FollowBounded(n, a.fws)
    requires AllCfgs(a, fplp) && forall c, d | c in fplp && d in fplp[c] :: IsCfg(a, d)
    ensures LeastFollow(a, fplp, f) && FollowBounded(n, f)
  {
    f := a.fws;
    var complete: set<Cfg> := {};
    var progress := true;
    while progress
      invariant Iterating(n, a, fplp, f, complete)
      invariant !progress ==> forall c | IsCfg(a, c) :: c in complete
      decreases Unfilled(n, f), progress
    {
      ghost var before := f;
      f, complete, progress := Pass(n, a, fplp, f, complete);
      if progress {
        FillShrinks(n, before, f);
      }
    }
  }

  // ----- The least solution as reachability -----

  /** A chain of links leads from the first configuration of `path` to the last. */
  ghost predicate LinkPath(fplp: Links, path: seq<Cfg>) {
    && |path| > 0
    && forall k | 0 <= k < |path| - 1 :: path[k] in fplp && path[k + 1] in fplp[path[k]]
  }

  ghost predicate SeedReaches(a: Automaton, fplp: Links, t: nat, d: Cfg) {
    exists path :: SeedPath(a, fplp, t, d, path)
  }

  ghost predicate SeedPath(a: Automaton, fplp: Links, t: nat, d: Cfg, path: seq<Cfg>) {
    LinkPath(fplp, path) && path[|path| - 1] == d && path[0] in a.fws && t in a.fws[path[0]]
  }

  lemma {:induction false} PathFlows(a: Automaton, fplp: Links, f: Follow, t: nat, d: Cfg, path: seq<Cfg>)
    requires FollowSolution(a, fplp, f) && SeedPath(a, fplp, t, d, path) && AllCfgs(a, a.fws)
    ensures d in f && t in f[d]
    decreases |path|
  {
    if |path| > 1 {
      var init := path[..|path| - 1];
      assert SeedPath(a, fplp, t, init[|init| - 1], init);
      PathFlows(a, fplp, f, t, init[|init| - 1], init);
      assert Propagated(f, fplp, init[|init| - 1]);
    } else {
      assert path[0] == d;
    }
  }

  ghost function Reached(n: nat, a: Automaton, fplp: Links): Follow {
    map c | c in a.fws :: set t: nat | t < n && SeedReaches(a, fplp, t, c)
  }

  lemma ReachedIsSolution(n: nat, a: Automaton, fplp: Links)
    requires AllCfgs(a, a.fws) && FollowBounded(n, a.fws)
    requires AllCfgs(a, fplp) && forall c, d | c in fplp && d in fplp[c] :: IsCfg(a, d)
    ensures FollowSolution(a, fplp, Reached(n, a, fplp))
  {
    var f := Reached(n, a, fplp);
    forall c, t | c in a.fws && t in a.fws[c] ensures t in f[c] {
      assert SeedPath(a, fplp, t, c, [c]);
    }
    forall c | c in f ensures Propagated(f, fplp, c) {
      forall d, t: nat | d in fplp[c] && t in f[c] ensures d in f && t in f[d] {
        StepReaches(a, fplp, t, c, d);
      }
    }
  }

  lemma StepReaches(a: Automaton, fplp: Links, t: nat, c: Cfg, d: Cfg)
    requires SeedReaches(a, fplp, t, c) && c in fplp && d in fplp[c]
    ensures SeedReaches(a, fplp, t, d)
  {
    var path :| SeedPath(a, fplp, t, c, path);
    assert SeedPath(a, fplp, t, d, path + [d]);
  }

  /** Each follow set is exactly the set of terminals seeded on some configuration from which a
      chain of forward links leads here. */
  lemma FollowIsReachability(n: nat, a: Automaton, fplp: Links, f: Follow)
    requires AllCfgs(a, a.fws) && FollowBounded(n, a.fws)
    requires AllCfgs(a, fplp) && forall c, d | c in fplp && d in fplp[c] :: IsCfg(a, d)
    requires LeastFollow(a, fplp, f)
    ensures forall d, t | d in f :: t in f[d] <==> SeedReaches(a, fplp, t, d)
  {
    ReachedIsSolution(n, a, fplp);
    assert FollowBelow(f, Reached(n, a, fplp));
    forall d, t | d in f && SeedReaches(a, fplp, t, d) ensures t in f[d] {
      var path :| SeedPath(a, fplp, t, d, path);
      PathFlows(a, fplp, f, t, d, path);
    }
  }

  /** The seeds are terminals, so the sets of the collection meet the bound. */
  lemma SeedsBounded(g: Grammar, lam: set<nat>, first: First, a: Automaton)
    requires WfGrammar(g) && Domain(g, first) && Partial(g, lam, first, a)
    ensures AllCfgs(a, a.fws) && FollowBounded(g.nterminal, a.fws)
  {
    hide StateOk, Placed, ShiftOk, ClosureLink, ShiftLink;
    forall c, t | c in a.fws && t in a.fws[c] ensures t < g.nterminal {
      assert IsCfg(a, c) && ConfigOk(g, lam, first, a, c);
      assert Seeded(g, lam, first, a, c, t);
      if SeededBy(g, lam, first, a.states[c.state].items, c.item, t) {
        var src :| src in a.states[c.state].items && Spawns(g, src, c.item) && t in FirstOf(lam, first, Rest(g, src));
        assert WfRule(g, g.rules[src.rule]);
        FirstOfTerminals(g, lam, first, Rest(g, src));
      }
    }
  }

  lemma ExactLinksAreCfgs(g: Grammar, lam: set<nat>, first: First, a: Automaton, fplp: Links)
    requires Collection(g, lam, first, a) && ExactLinks(g, lam, a, fplp)
    ensures forall c, d | c in fplp && d in fplp[c] :: IsCfg(a, d)
  {
    hide Placed, ShiftOk, Seeded, Done, IsClosure;
    forall c, d | c in fplp && d in fplp[c] ensures IsCfg(a, d) {
      assert IsCfg(a, c);
      if ClosureLink(g, lam, c, d) {
        ClosureStays(g, a, c.state, c.item, d.item, lam, first);
      } else {
        AdvanceStays(g, lam, first, a, c, d);
      }
    }
  }

  lemma ClosureStays(g: Grammar, a: Automaton, i: nat, src: Item, it: Item, lam: set<nat>, first: First)
    requires Partial(g, lam, first, a) && i < |a.states| && src in a.states[i].items && Spawns(g, src, it)
    ensures it in a.states[i].items
  {
    assert StateOk(g, a.states[i]);
    assert src in ItemSet(a.states[i].items);
    assert it in ItemSet(a.states[i].items);
  }

  lemma AdvanceStays(g: Grammar, lam: set<nat>, first: First, a: Automaton, c: Cfg, d: Cfg)
    requires Partial(g, lam, first, a) && ShiftLink(g, a, c, d)
    ensures IsCfg(a, d)
  {
    assert StateOk(g, a.states[d.state]);
    var x := Next(g, c.item).value;
    assert c.item in ItemSet(a.states[c.state].items);
    assert Advance(c.item) in GotoSet(g, ItemSet(a.states[c.state].items), x);
    assert d.item in ItemSet(a.states[d.state].basis);
    assert d.item in ItemSet(a.states[d.state].items);
  }
}
