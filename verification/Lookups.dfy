/** The two lookups in the emitted tables return the codes of the abstract decisions. */
module Lookups {
  import opened Grammars
  import opened Automata
  import opened Compression
  import opened Fallbacks
  import opened ActTabs
  import opened ParserTables
  import opened Report
  import opened Emit

  /** The decision on a nonterminal after a reduce. */
  ghost function DecideGoto(g: Grammar, ap: seq<Action>, a: nat): Effect {
    var own := LiveOn(ap, a);
    if own.Some? then EffectOf(own.value) else DefaultEffect(g, ap)
  }

  ghost predicate ListOk(g: Grammar, ap: seq<Action>) {
    UniqueLive(ap) && forall act | act in ap && Live(act) :: act.sp <= g.nsymbol
  }

  ghost predicate SymbolsOk(g: Grammar) {
    && g.nterminal <= g.nsymbol && |g.fallback| == g.nterminal
    && (forall t | 0 <= t < g.nterminal :: g.fallback[t] < g.nterminal)
    && (g.wildcard.Some? ==> g.wildcard.value < g.nterminal)
  }

  lemma EntryIsLive(g: Grammar, num: seq<nat>, ap: seq<Action>, isTkn: bool, x: nat, v: int)
    requires UniqueLive(ap) && Slot(x, v) in Entries(g, num, ap, isTkn)
    ensures LiveOn(ap, x).Some? && v == ComputeAction(num, |g.rules|, LiveOn(ap, x).value)
  {
    var entries := Entries(g, num, ap, isTkn);
    var j :| 0 <= j < |entries| && entries[j] == Slot(x, v);
    EntriesAction(g, num, ap, isTkn, j);
    var k :| 0 <= k < |ap| && Live(ap[k]) && InTransaction(g, isTkn, ap[k].sp)
      && entries[j] == Slot(ap[k].sp, ComputeAction(num, |g.rules|, ap[k]));
    LiveOnUnique(ap, ap[k]);
  }

  lemma HasEntryIffLive(g: Grammar, num: seq<nat>, ap: seq<Action>, isTkn: bool, x: nat)
    requires InTransaction(g, isTkn, x)
    ensures HasLookahead(Entries(g, num, ap, isTkn), x) <==> LiveOn(ap, x).Some?
  {
    EntriesMembers(g, num, ap, isTkn, x);
    var own := LiveOn(ap, x);
    if own.Some? {
      var k :| 0 <= k < |ap| && ap[k] == own.value;
    }
  }

  /** A row finds an action exactly when the state has a live one on the symbol. */
  lemma RowFinds(g: Grammar, num: seq<nat>, ap: seq<Action>, tb: Tables, rows: seq<int>, useDflt: int, s: nat,
        isTkn: bool, x: nat)
    requires |tb.yyLookahead| == |tb.yyAction| && UniqueLive(ap) && InTransaction(g, isTkn, x) && x < tb.nsymbol
    requires RowOk(tb, rows, useDflt, s, Entries(g, num, ap, isTkn))
    requires s < |rows| && rows[s] != useDflt
    ensures Hit(tb, rows[s], x).Some? <==> LiveOn(ap, x).Some?
    ensures Hit(tb, rows[s], x).Some? ==>
      Hit(tb, rows[s], x).value == ComputeAction(num, |g.rules|, LiveOn(ap, x).value)
  {
    HasEntryIffLive(g, num, ap, isTkn, x);
    if Hit(tb, rows[s], x).Some? {
      EntryIsLive(g, num, ap, isTkn, x, Hit(tb, rows[s], x).value);
    }
  }

  lemma {:induction false} EmptyRowDefault(g: Grammar, num: seq<nat>, ap: seq<Action>, t: nat, n: nat)
    requires SymbolsOk(g) && Entries(g, num, ap, true) == [] && t < g.nterminal && ChainEnds(g.fallback, t, n)
    ensures Decide(g, ap, t, n) == DefaultEffect(g, ap)
    decreases n
  {
    HasEntryIffLive(g, num, ap, true, t);
    if g.wildcard.Some? {
      HasEntryIffLive(g, num, ap, true, g.wildcard.value);
    }
    if HasFallback(g, t) {
      EmptyRowDefault(g, num, ap, g.fallback[t], n - 1);
    }
  }

  lemma SameChains(g: Grammar, tb: Tables, t: nat, n: nat)
    requires tb.fallback == (if forall k | 0 <= k < |g.fallback| :: g.fallback[k] == 0 then [] else g.fallback)
    requires ChainEnds(g.fallback, t, n)
    ensures ChainEnds(tb.fallback, t, n)
  {
  }

  /** For every state and terminal, the lookup through the offset tables returns the code of the
      decision: own action, fallback, wildcard, default. */
  lemma {:induction false} ShiftLookup(g: Grammar, num: seq<nat>, aps: seq<seq<Action>>, tb: Tables,
                                       i: nat, t: nat, n: nat)
    requires TablesFor(g, num, aps, tb) && SymbolsOk(g) && i < |aps| && ListOk(g, aps[i])
    requires t < g.nterminal && ChainEnds(g.fallback, t, n)
    ensures ChainEnds(tb.fallback, t, n)
    ensures FindShiftAction(tb, num[i], t, n) == EffectCode(num, |g.rules|, Decide(g, aps[i], t, n))
    decreases n
  {
    hide RowOk, UniqueLive;
    SameChains(g, tb, t, n);
    DefaultIsEffect(g, num, aps[i]);
    var s := num[i];
    if s >= |tb.shiftOfst| || tb.shiftOfst[s] == tb.shiftUseDflt {
      NoRowNoEntries(tb, tb.shiftOfst, tb.shiftUseDflt, s, Entries(g, num, aps[i], true));
      EmptyRowDefault(g, num, aps[i], t, n);
    } else {
      RowFinds(g, num, aps[i], tb, tb.shiftOfst, tb.shiftUseDflt, s, true, t);
      if g.wildcard.Some? {
        RowFinds(g, num, aps[i], tb, tb.shiftOfst, tb.shiftUseDflt, s, true, g.wildcard.value);
      }
      if HasFallback(g, t) {
        ShiftLookup(g, num, aps, tb, i, g.fallback[t], n - 1);
      }
    }
  }

  lemma NoRowNoEntries(tb: Tables, rows: seq<int>, useDflt: int, s: nat, entries: seq<Slot>)
    requires |tb.yyLookahead| == |tb.yyAction| && RowOk(tb, rows, useDflt, s, entries)
    requires s >= |rows| || rows[s] == useDflt
    ensures entries == []
  {
  }

  /** For every state and nonterminal, the goto lookup returns the code of the decision. */
  lemma ReduceLookup(g: Grammar, num: seq<nat>, aps: seq<seq<Action>>, tb: Tables, i: nat, a: nat)
    requires TablesFor(g, num, aps, tb) && SymbolsOk(g) && i < |aps| && ListOk(g, aps[i])
    requires g.nterminal <= a < g.nsymbol
    ensures FindReduceAction(tb, num[i], a) == EffectCode(num, |g.rules|, DecideGoto(g, aps[i], a))
  {
    hide RowOk, UniqueLive;
    DefaultIsEffect(g, num, aps[i]);
    var s := num[i];
    if s >= |tb.reduceOfst| || tb.reduceOfst[s] == tb.reduceUseDflt {
      NoRowNoEntries(tb, tb.reduceOfst, tb.reduceUseDflt, s, Entries(g, num, aps[i], false));
      HasEntryIffLive(g, num, aps[i], false, a);
    } else {
      RowFinds(g, num, aps[i], tb, tb.reduceOfst, tb.reduceUseDflt, s, false, a);
    }
  }

  // ----- What a token leads to -----

  ghost predicate NothingOn(ap: seq<Action>, sp: nat) {
    forall act | act in ap && Live(act) :: act.sp != sp
  }

  /** Token `t` and its first fallbacks, up to the `k`-th, are tokens other than the end of the input
      on which the list has nothing. */
  ghost predicate NothingOnChain(g: Grammar, ap: seq<Action>, t: nat, k: nat) {
    forall j: nat | j < k :: 0 < Fallen(g.fallback, t, j) && NothingOn(ap, Fallen(g.fallback, t, j))
  }

  lemma {:induction false} FallsTo(g: Grammar, ap: seq<Action>, t: nat, k: nat, n: nat) returns (m: nat)
    requires ChainEnds(g.fallback, t, n) && NothingOnChain(g, ap, t, k) && (k > 0 ==> Fallen(g.fallback, t, k) > 0)
    ensures ChainEnds(g.fallback, Fallen(g.fallback, t, k), m)
    ensures Decide(g, ap, t, n) == Decide(g, ap, Fallen(g.fallback, t, k), m)
    decreases k
  {
    if k == 0 {
      m := n;
    } else {
      assert Fallen(g.fallback, t, 0) == t;
      var u := Fallen(g.fallback, t, 1);
      assert u == if t < |g.fallback| then g.fallback[t] else 0;
      forall j: nat ensures Fallen(g.fallback, u, j) == Fallen(g.fallback, t, 1 + j) {
        FallenSum(g.fallback, t, 1, j);
      }
      assert u > 0 by { assert k > 1 ==> Fallen(g.fallback, t, 1) > 0; }
      m := FallsTo(g, ap, u, k - 1, n - 1);
    }
  }

  /** The first token among `t` and its fallbacks that has an action: its code is returned. */
  lemma TokenFound(g: Grammar, num: seq<nat>, aps: seq<seq<Action>>, tb: Tables, i: nat, t: nat, n: nat,
                   k: nat, act: Action)
    requires TablesFor(g, num, aps, tb) && SymbolsOk(g) && i < |aps| && ListOk(g, aps[i])
    requires t < g.nterminal && ChainEnds(g.fallback, t, n)
    requires NothingOnChain(g, aps[i], t, k) && (k > 0 ==> Fallen(g.fallback, t, k) > 0)
    requires act in aps[i] && Live(act) && act.sp == Fallen(g.fallback, t, k)
    ensures ChainEnds(tb.fallback, t, n)
    ensures FindShiftAction(tb, num[i], t, n) == ComputeAction(num, |g.rules|, act)
  {
    hide TablesFor, UniqueLive;
    ShiftLookup(g, num, aps, tb, i, t, n);
    var m := FallsTo(g, aps[i], t, k, n);
    LiveOnUnique(aps[i], act);
  }

  /** No token of the chain has an action, but the wildcard has one, of whatever kind: its code is
      returned. */
  lemma WildcardFound(g: Grammar, num: seq<nat>, aps: seq<seq<Action>>, tb: Tables, i: nat, t: nat, n: nat,
                      k: nat, act: Action)
    requires TablesFor(g, num, aps, tb) && SymbolsOk(g) && i < |aps| && ListOk(g, aps[i])
    requires t < g.nterminal && ChainEnds(g.fallback, t, n)
    requires NothingOnChain(g, aps[i], t, k + 1) && Fallen(g.fallback, t, k + 1) == 0
    requires act in aps[i] && Live(act) && g.wildcard == Some(act.sp)
    ensures ChainEnds(tb.fallback, t, n)
    ensures FindShiftAction(tb, num[i], t, n) == ComputeAction(num, |g.rules|, act)
  {
    hide TablesFor, UniqueLive;
    ShiftLookup(g, num, aps, tb, i, t, n);
    var m := FallsTo(g, aps[i], t, k, n);
    assert Fallen(g.fallback, t, k) > 0 && NothingOn(aps[i], Fallen(g.fallback, t, k));
    LiveOnUnique(aps[i], act);
  }

  /** Neither a token of the chain nor the wildcard has an action, or the end of the input has none:
      the default is returned, an error if there is none. */
  lemma DefaultReturned(g: Grammar, num: seq<nat>, aps: seq<seq<Action>>, tb: Tables, i: nat, t: nat, n: nat, k: nat)
    requires TablesFor(g, num, aps, tb) && SymbolsOk(g) && i < |aps| && ListOk(g, aps[i])
    requires t < g.nterminal && ChainEnds(g.fallback, t, n)
    requires if t == 0 then NothingOn(aps[i], 0)
             else NothingOnChain(g, aps[i], t, k + 1) && Fallen(g.fallback, t, k + 1) == 0 &&
                  (g.wildcard.Some? ==> NothingOn(aps[i], g.wildcard.value))
    ensures ChainEnds(tb.fallback, t, n)
    ensures NothingOn(aps[i], g.nsymbol) ==> FindShiftAction(tb, num[i], t, n) == |num| + |g.rules|
    ensures forall act | act in aps[i] && Live(act) && act.sp == g.nsymbol ::
      FindShiftAction(tb, num[i], t, n) == ComputeAction(num, |g.rules|, act)
  {
    hide TablesFor, UniqueLive;
    ShiftLookup(g, num, aps, tb, i, t, n);
    if t > 0 {
      var m := FallsTo(g, aps[i], t, k, n);
      assert Fallen(g.fallback, t, k) > 0 && NothingOn(aps[i], Fallen(g.fallback, t, k));
    }
    forall act | act in aps[i] && Live(act) && act.sp == g.nsymbol
      ensures LiveOn(aps[i], g.nsymbol) == Some(act)
    {
      LiveOnUnique(aps[i], act);
    }
  }

  /** The goto on a nonterminal is its own action, else the default, else an error. */
  lemma GotoFound(g: Grammar, num: seq<nat>, aps: seq<seq<Action>>, tb: Tables, i: nat, a: nat)
    requires TablesFor(g, num, aps, tb) && SymbolsOk(g) && i < |aps| && ListOk(g, aps[i])
    requires g.nterminal <= a < g.nsymbol
    ensures forall act | act in aps[i] && Live(act) && act.sp == a ::
      FindReduceAction(tb, num[i], a) == ComputeAction(num, |g.rules|, act)
    ensures forall act | NothingOn(aps[i], a) && act in aps[i] && Live(act) && act.sp == g.nsymbol ::
      FindReduceAction(tb, num[i], a) == ComputeAction(num, |g.rules|, act)
    ensures NothingOn(aps[i], a) && NothingOn(aps[i], g.nsymbol) ==>
      FindReduceAction(tb, num[i], a) == |num| + |g.rules|
  {
    hide TablesFor, UniqueLive;
    ReduceLookup(g, num, aps, tb, i, a);
    forall act | act in aps[i] && Live(act) ensures LiveOn(aps[i], act.sp) == Some(act) {
      LiveOnUnique(aps[i], act);
    }
  }
}
