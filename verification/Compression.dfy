/** Decisions of the parser in one state, and the compression of the action list that makes
    the most frequent reduce the default. */
module Compression {
  import opened Grammars
  import opened Automata
  import opened Actions
  import opened MergeSort

  // ----- Decisions -----

  /** The live action on symbol `sp`, if there is one. */
  ghost function LiveOn(ap: seq<Action>, sp: nat): (r: Option<Action>)
    ensures r.Some? ==> r.value in ap && r.value.sp == sp && Live(r.value)
    ensures r.None? ==> forall act | act in ap && Live(act) :: act.sp != sp
  {
    if k :| 0 <= k < |ap| && ap[k].sp == sp && Live(ap[k]) then Some(ap[k]) else None
  }

  lemma LiveOnUnique(ap: seq<Action>, act: Action)
    requires UniqueLive(ap) && act in ap && Live(act)
    ensures LiveOn(ap, act.sp) == Some(act)
  {
    var r := LiveOn(ap, act.sp);
    assert r.Some?;
    var i :| 0 <= i < |ap| && ap[i] == act;
    var j :| 0 <= j < |ap| && ap[j] == r.value;
  }

  /** The chain of fallback tokens from `t` comes to an end within `n` steps. */
  predicate ChainEnds(fallback: seq<nat>, t: nat, n: nat)
    decreases n
  {
    t == 0 || t >= |fallback| || fallback[t] == 0 || (n > 0 && ChainEnds(fallback, fallback[t], n - 1))
  }

  /** From every token the search along the fallbacks comes to an end. */
  ghost predicate FallbackAcyclic(g: Grammar) {
    forall t: nat | t < g.nterminal :: ChainEnds(g.fallback, t, g.nterminal)
  }

  ghost predicate HasFallback(g: Grammar, t: nat) {
    0 < t < |g.fallback| && g.fallback[t] != 0
  }

  /** What a decision makes the parser do: its kind and its state or rule. */
  datatype Effect = Effect(kind: ActionKind, target: nat)

  function EffectOf(act: Action): Effect {
    Effect(act.kind, act.target)
  }

  const ERROR_EFFECT := Effect(ErrorAction, 0)

  ghost function DefaultEffect(g: Grammar, ap: seq<Action>): Effect {
    var d := LiveOn(ap, g.nsymbol);
    if d.Some? then EffectOf(d.value) else ERROR_EFFECT
  }

  ghost function WildcardAction(g: Grammar, ap: seq<Action>, t: nat): Option<Action> {
    if t > 0 && g.wildcard.Some? then LiveOn(ap, g.wildcard.value) else None
  }

  /** The decision on terminal `t`: its own action, else that of its fallback, else that of the
      wildcard, else the default. */
  ghost function Decide(g: Grammar, ap: seq<Action>, t: nat, n: nat): Effect
    requires ChainEnds(g.fallback, t, n)
    decreases n
  {
    var own := LiveOn(ap, t);
    if own.Some? then EffectOf(own.value)
    else if HasFallback(g, t) then Decide(g, ap, g.fallback[t], n - 1)
    else
      var w := WildcardAction(g, ap, t);
      if w.Some? then EffectOf(w.value) else DefaultEffect(g, ap)
  }

  // ----- CompressTables, one state -----

  predicate IsReduceBy(act: Action, r: nat) {
    act.kind == Reduce && act.target == r
  }

  function Count(ap: seq<Action>, r: nat): nat {
    if ap == [] then 0 else (if IsReduceBy(ap[0], r) then 1 else 0) + Count(ap[1..], r)
  }

  lemma {:induction false} CountConcat(a: seq<Action>, b: seq<Action>, r: nat)
    ensures Count(a + b, r) == Count(a, r) + Count(b, r)
  {
    if a == [] {
      assert a + b == b;
    } else {
      CountConcat(a[1..], b, r);
      assert (a + b)[1..] == a[1..] + b;
    }
  }

  lemma {:induction false} CountZero(a: seq<Action>, r: nat)
    ensures Count(a, r) == 0 <==> forall act | act in a :: !IsReduceBy(act, r)
  {
    if a != [] {
      CountZero(a[1..], r);
      assert a == [a[0]] + a[1..];
    }
  }

  predicate UsesWildcard(g: Grammar, ap: seq<Action>) {
    g.wildcard.Some? && exists k :: 0 <= k < |ap| && ap[k].kind == Shift && ap[k].sp == g.wildcard.value
  }

  /** Where the list reduces by rule `r`. */
  function ReducesAt(ap: seq<Action>, r: nat): set<nat> {
    set k: nat | k < |ap| && ap[k].kind == Reduce && ap[k].target == r
  }

  lemma {:induction false} CountIsSize(ap: seq<Action>, r: nat)
    ensures Count(ap, r) == |ReducesAt(ap, r)|
  {
    if ap != [] {
      var n := |ap| - 1;
      CountIsSize(ap[..n], r);
      assert ap == ap[..n] + [ap[n]];
      CountConcat(ap[..n], [ap[n]], r);
      if IsReduceBy(ap[n], r) {
        assert ReducesAt(ap, r) == ReducesAt(ap[..n], r) + {n};
      } else {
        assert ReducesAt(ap, r) == ReducesAt(ap[..n], r);
      }
    }
  }

  /** No rule is reduced by more often than `r`, and those as frequent are met later. */
  ghost predicate MostFrequent(ap: seq<Action>, r: nat) {
    && (forall q: nat :: |ReducesAt(ap, q)| <= |ReducesAt(ap, r)|)
    && exists k: nat :: k in ReducesAt(ap, r) &&
         forall q: nat, j | j in ReducesAt(ap, q) && j < k :: |ReducesAt(ap, q)| < |ReducesAt(ap, r)|
  }

  /** Compression by rule `r`: the reduces by `r` give way to one default, the rest stays. */
  ghost predicate CompressedBy(g: Grammar, ap0: seq<Action>, ap: seq<Action>, r: nat) {
    && MostFrequent(ap0, r) && !UsesWildcard(g, ap0)
    && UniqueLive(ap)
    && forall act :: act in ap && Live(act) <==>
         (act in ap0 && Live(act) && !IsReduceBy(act, r)) || act == Action(g.nsymbol, Reduce, r)
  }

  ghost predicate Compressed(g: Grammar, ap0: seq<Action>, ap: seq<Action>) {
    if UsesWildcard(g, ap0) || forall act | act in ap0 :: act.kind != Reduce then ap == ap0
    else exists r: nat :: CompressedBy(g, ap0, ap, r)
  }

  /** How often rule `rp` is reduced by from index `k` on. */
  method CountFrom(ap: seq<Action>, k: nat, rp: nat) returns (n: nat)
    requires k < |ap| && IsReduceBy(ap[k], rp)
    ensures n == Count(ap[k..], rp) && n > 0
  {
    n := 1;
    for j := k + 1 to |ap|
      invariant n + Count(ap[j..], rp) == Count(ap[k..], rp) && n > 0
    {
      assert ap[j..][1..] == ap[j + 1..];
      if ap[j].kind == Reduce && ap[j].target == rp { n := n + 1; }
    }
  }

  /** From its first occurrence on a rule is counted in full. */
  lemma CountTail(ap: seq<Action>, k: nat, r: nat)
    requires k <= |ap|
    ensures Count(ap[k..], r) <= Count(ap, r)
    ensures (forall j | 0 <= j < k :: !IsReduceBy(ap[j], r)) ==> Count(ap[k..], r) == Count(ap, r)
  {
    assert ap == ap[..k] + ap[k..];
    CountConcat(ap[..k], ap[k..], r);
    CountZero(ap[..k], r);
  }

  /** The scan for the most frequent reduce: `best` is none when there is no reduce. */
  method FindBest(g: Grammar, ap: seq<Action>) returns (best: Option<nat>, usesWildcard: bool)
    ensures usesWildcard <==> UsesWildcard(g, ap)
    ensures best.None? ==> forall act | act in ap :: act.kind != Reduce
    ensures best.Some? ==> MostFrequent(ap, best.value)
  {
    hide MostFrequent, Count;
    var nbest := 0;
    ghost var at: nat := 0;
    best, usesWildcard := None, false;
    for k := 0 to |ap|
      invariant usesWildcard <==>
        g.wildcard.Some? && exists j :: 0 <= j < k && ap[j].kind == Shift && ap[j].sp == g.wildcard.value
      invariant best.None? ==> nbest == 0 && forall j | 0 <= j < k :: ap[j].kind != Reduce
      invariant best.Some? ==> nbest == Count(ap, best.value) > 0
      invariant best.Some? ==> at < k && IsReduceBy(ap[at], best.value)
      invariant forall j | 0 <= j < at && j < k && ap[j].kind == Reduce :: Count(ap, ap[j].target) < nbest
      invariant forall j | 0 <= j < k && ap[j].kind == Reduce :: Count(ap, ap[j].target) <= nbest
    {
      if ap[k].kind == Shift && Some(ap[k].sp) == g.wildcard { usesWildcard := true; }
      if ap[k].kind != Reduce || best == Some(ap[k].target) { continue; }
      var rp := ap[k].target;
      var n := CountFrom(ap, k, rp);
      CountTail(ap, k, rp);
      if n > nbest {
        nbest, best, at := n, Some(rp), k;
      }
    }
    if best.Some? {
      BestIsMostFrequent(ap, best.value, at);
    }
  }

  lemma BestIsMostFrequent(ap: seq<Action>, r: nat, at: nat)
    requires at < |ap| && IsReduceBy(ap[at], r) && Count(ap, r) > 0
    requires forall j | 0 <= j < |ap| && ap[j].kind == Reduce :: Count(ap, ap[j].target) <= Count(ap, r)
    requires forall j | 0 <= j < at && ap[j].kind == Reduce :: Count(ap, ap[j].target) < Count(ap, r)
    ensures MostFrequent(ap, r)
  {
    CountIsSize(ap, r);
    forall q: nat ensures |ReducesAt(ap, q)| <= |ReducesAt(ap, r)| {
      CountIsSize(ap, q);
      CountZero(ap, q);
      if Count(ap, q) != 0 {
        var act :| act in ap && IsReduceBy(act, q);
        var j :| 0 <= j < |ap| && ap[j] == act;
      }
    }
    assert at in ReducesAt(ap, r);
    forall q: nat, j | j in ReducesAt(ap, q) && j < at ensures |ReducesAt(ap, q)| < |ReducesAt(ap, r)| {
      CountIsSize(ap, q);
    }
  }

  /** The list with the first reduce by `r` made the default and the others unused. */
  function Moved(g: Grammar, ap: seq<Action>, r: nat, found: bool): seq<Action> {
    if ap == [] then []
    else if IsReduceBy(ap[0], r) then
      [if found then ap[0].(kind := NotUsed) else ap[0].(sp := g.nsymbol)] + Moved(g, ap[1..], r, true)
    else [ap[0]] + Moved(g, ap[1..], r, found)
  }

  method MoveToDefault(g: Grammar, ap0: seq<Action>, r: nat) returns (ap: seq<Action>)
    ensures ap == Moved(g, ap0, r, false)
  {
    ap := [];
    var found := false;
    for k := 0 to |ap0|
      invariant ap + Moved(g, ap0[k..], r, found) == Moved(g, ap0, r, false)
    {
      assert ap0[k..][1..] == ap0[k + 1..];
      if IsReduceBy(ap0[k], r) {
        ap := ap + [if found then ap0[k].(kind := NotUsed) else ap0[k].(sp := g.nsymbol)];
        found := true;
      } else {
        ap := ap + [ap0[k]];
      }
    }
  }

  lemma {:induction false} MovedMembers(g: Grammar, ap: seq<Action>, r: nat, found: bool)
    ensures |Moved(g, ap, r, found)| == |ap|
    ensures forall act :: act in Moved(g, ap, r, found) && Live(act) <==>
      (act in ap && Live(act) && !IsReduceBy(act, r))
        || (!found && Count(ap, r) > 0 && act == Action(g.nsymbol, Reduce, r))
  {
    if ap != [] {
      var rest := if IsReduceBy(ap[0], r) then true else found;
      MovedMembers(g, ap[1..], r, rest);
      assert ap == [ap[0]] + ap[1..];
    }
  }

  lemma {:induction false} MovedUnique(g: Grammar, ap: seq<Action>, r: nat, found: bool)
    requires UniqueLive(ap) && forall act | act in ap && Live(act) :: act.sp != g.nsymbol
    ensures UniqueLive(Moved(g, ap, r, found))
  {
    if ap != [] {
      var rest := if IsReduceBy(ap[0], r) then true else found;
      var tail := Moved(g, ap[1..], r, rest);
      assert forall i, j :: 0 <= i < j < |ap[1..]| ==> ap[1..][i] == ap[i + 1] && ap[1..][j] == ap[j + 1];
      MovedUnique(g, ap[1..], r, rest);
      MovedMembers(g, ap[1..], r, rest);
      var head := Moved(g, ap, r, found)[0];
      forall k | 0 <= k < |tail| && Live(head) && Live(tail[k]) ensures tail[k].sp != head.sp {
        assert tail[k] in tail;
        if tail[k] in ap[1..] {
          var m :| 0 <= m < |ap[1..]| && ap[1..][m] == tail[k];
          assert ap[m + 1] == tail[k];
        }
      }
      assert Moved(g, ap, r, found) == [head] + tail;
    }
  }

  lemma TwoPlaces(s: seq<Action>, x: Action) returns (i: nat, j: nat)
    requires multiset(s)[x] >= 2
    ensures i < j < |s| && s[i] == x && s[j] == x
  {
    i :| 0 <= i < |s| && s[i] == x;
    assert s == s[..i] + [x] + s[i + 1..];
    assert multiset(s) == multiset(s[..i]) + multiset{x} + multiset(s[i + 1..]);
    if x in s[i + 1..] {
      var k :| 0 <= k < |s[i + 1..]| && s[i + 1..][k] == x;
      j := i + 1 + k;
    } else {
      assert multiset(s[i + 1..])[x] == 0;
      assert x in multiset(s[..i]);
      var k :| 0 <= k < |s[..i]| && s[..i][k] == x;
      i, j := k, i;
    }
  }

  lemma PermutationUnique(s: seq<Action>, t: seq<Action>)
    requires multiset(s) == multiset(t) && UniqueLive(s)
    ensures UniqueLive(t)
  {
    SameMembers(s, t);
    forall i, j | 0 <= i < j < |t| && Live(t[i]) && Live(t[j]) ensures t[i].sp != t[j].sp {
      if t[i] == t[j] {
        TwicePresent(t, i, j);
        var p, q := TwoPlaces(s, t[i]);
      } else {
        assert t[i] in s && t[j] in s;
        var p :| 0 <= p < |s| && s[p] == t[i];
        var q :| 0 <= q < |s| && s[q] == t[j];
      }
    }
  }

  method CompressState(g: Grammar, ap0: seq<Action>, tie: Action -> int) returns (ap: seq<Action>)
    requires |ap0| < 0x4000_0000 && UniqueLive(ap0)
    requires forall act | act in ap0 && Live(act) :: act.sp != g.nsymbol
    ensures Compressed(g, ap0, ap)
  {
    hide MostFrequent, UsesWildcard, UniqueLive, StableSortOf;
    var best, usesWildcard := FindBest(g, ap0);
    if best.None? || usesWildcard {
      return ap0;
    }
    var r := best.value;
    HasReduce(ap0, r);
    ap := MoveToDefault(g, ap0, r);
    MovedMembers(g, ap0, r, false);
    MovedUnique(g, ap0, r, false);
    ActionCmpIsTotal(tie);
    var moved := ap;
    SortIsStableSort(Cmp(tie), moved);
    ap := MSort(Cmp(tie), moved);
    StablePermutes(Cmp(tie), ap, moved);
    PermutationUnique(moved, ap);
    SameMembers(moved, ap);
    assert CompressedBy(g, ap0, ap, r);
  }

  /** Compression of all states; a list without a reduce stays, and so does one that shifts the
      wildcard. */
  method CompressTables(g: Grammar, aps0: seq<seq<Action>>, tie: Action -> int) returns (aps: seq<seq<Action>>)
    requires forall i | 0 <= i < |aps0| :: |aps0[i]| < 0x4000_0000 && UniqueLive(aps0[i])
    requires forall i, act | 0 <= i < |aps0| && act in aps0[i] && Live(act) :: act.sp != g.nsymbol
    ensures |aps| == |aps0| && forall i | 0 <= i < |aps0| :: Compressed(g, aps0[i], aps[i])
  {
    hide UniqueLive, Compressed;
    aps := [];
    for i := 0 to |aps0|
      invariant |aps| == i && forall k | 0 <= k < i :: Compressed(g, aps0[k], aps[k])
    {
      var ap := CompressState(g, aps0[i], tie);
      aps := aps + [ap];
    }
  }

  lemma HasReduce(ap: seq<Action>, r: nat)
    requires MostFrequent(ap, r)
    ensures Count(ap, r) > 0
    ensures exists act :: act in ap && act.kind == Reduce
  {
    CountIsSize(ap, r);
    var k: nat :| k in ReducesAt(ap, r);
    assert ap[k] in ap;
  }

  // ----- What compression preserves -----

  /** Every action but a reduce by the default rule is still the one found. */
  lemma OthersPreserved(g: Grammar, ap0: seq<Action>, ap: seq<Action>, r: nat, t: nat, n: nat)
    requires UniqueLive(ap0) && CompressedBy(g, ap0, ap, r) && ChainEnds(g.fallback, t, n)
    requires LiveOn(ap0, t).Some? && !IsReduceBy(LiveOn(ap0, t).value, r)
    ensures Decide(g, ap, t, n) == Decide(g, ap0, t, n) == EffectOf(LiveOn(ap0, t).value)
  {
    hide MostFrequent, UsesWildcard;
    LiveOnUnique(ap, LiveOn(ap0, t).value);
  }

  /** The explicit action of the wildcard that would be found before the default. */
  ghost predicate WildcardReducesElsewhere(g: Grammar, ap0: seq<Action>, r: nat) {
    g.wildcard.Some? && LiveOn(ap0, g.wildcard.value).Some? && !IsReduceBy(LiveOn(ap0, g.wildcard.value).value, r)
  }

  lemma WildcardAfter(g: Grammar, ap0: seq<Action>, ap: seq<Action>, r: nat, t: nat)
    requires UniqueLive(ap0) && CompressedBy(g, ap0, ap, r)
    requires g.wildcard.Some? ==> g.wildcard.value != g.nsymbol
    ensures WildcardAction(g, ap, t) ==
      if t > 0 && WildcardReducesElsewhere(g, ap0, r) then LiveOn(ap0, g.wildcard.value) else None
  {
    hide MostFrequent, UsesWildcard;
    if WildcardReducesElsewhere(g, ap0, r) {
      LiveOnUnique(ap, LiveOn(ap0, g.wildcard.value).value);
    } else if g.wildcard.Some? {
      var after := LiveOn(ap, g.wildcard.value);
      if after.Some? {
        LiveOnUnique(ap0, after.value);
      }
    }
  }

  lemma DefaultAfter(g: Grammar, ap0: seq<Action>, ap: seq<Action>, r: nat)
    requires CompressedBy(g, ap0, ap, r)
    ensures DefaultEffect(g, ap) == Effect(Reduce, r)
  {
    hide MostFrequent, UsesWildcard;
    LiveOnUnique(ap, Action(g.nsymbol, Reduce, r));
  }

  lemma OwnAfter(g: Grammar, ap0: seq<Action>, ap: seq<Action>, r: nat, t: nat)
    requires UniqueLive(ap0) && CompressedBy(g, ap0, ap, r) && t != g.nsymbol
    requires LiveOn(ap0, t).None? || IsReduceBy(LiveOn(ap0, t).value, r)
    ensures LiveOn(ap, t).None?
  {
    hide MostFrequent, UsesWildcard;
    var after := LiveOn(ap, t);
    if after.Some? {
      LiveOnUnique(ap0, after.value);
    }
  }

  /** Along the fallbacks from `t` no action by anything but rule `r` is met in the list before
      compression, and at the end no wildcard action by anything else. */
  ghost predicate ReachesDefault(g: Grammar, ap0: seq<Action>, r: nat, t: nat, n: nat)
    requires ChainEnds(g.fallback, t, n)
    decreases n
  {
    var own := LiveOn(ap0, t);
    if own.Some? && !IsReduceBy(own.value, r) then false
    else if HasFallback(g, t) then ReachesDefault(g, ap0, r, g.fallback[t], n - 1)
    else t == 0 || !WildcardReducesElsewhere(g, ap0, r)
  }

  /** After compression a token finds the default if and only if the list before compression has
      nothing else for it. */
  lemma {:induction false} DefaultFoundIff(g: Grammar, ap0: seq<Action>, ap: seq<Action>, r: nat, t: nat, n: nat)
    requires UniqueLive(ap0) && CompressedBy(g, ap0, ap, r) && ChainEnds(g.fallback, t, n) && t < g.nsymbol
    requires g.wildcard.Some? ==> g.wildcard.value < g.nsymbol
    requires forall k | 0 <= k < |g.fallback| :: g.fallback[k] < g.nsymbol
    ensures Decide(g, ap, t, n) == Effect(Reduce, r) <==> ReachesDefault(g, ap0, r, t, n)
    decreases n
  {
    hide MostFrequent, UsesWildcard, CompressedBy;
    if LiveOn(ap0, t).Some? && !IsReduceBy(LiveOn(ap0, t).value, r) {
      OthersPreserved(g, ap0, ap, r, t, n);
    } else {
      OwnAfter(g, ap0, ap, r, t);
      WildcardAfter(g, ap0, ap, r, t);
      DefaultAfter(g, ap0, ap, r);
      if HasFallback(g, t) {
        DefaultFoundIff(g, ap0, ap, r, g.fallback[t], n - 1);
      }
    }
  }

  /** A token whose reduce became the default, with or without a fallback, still finds it if and
      only if it reaches the default. */
  lemma MovedPreservedIff(g: Grammar, ap0: seq<Action>, ap: seq<Action>, r: nat, t: nat, n: nat)
    requires UniqueLive(ap0) && CompressedBy(g, ap0, ap, r) && ChainEnds(g.fallback, t, n) && t < g.nsymbol
    requires g.wildcard.Some? ==> g.wildcard.value < g.nsymbol
    requires forall k | 0 <= k < |g.fallback| :: g.fallback[k] < g.nsymbol
    requires LiveOn(ap0, t).Some? && IsReduceBy(LiveOn(ap0, t).value, r)
    ensures Decide(g, ap0, t, n) == Effect(Reduce, r)
    ensures Decide(g, ap, t, n) == Decide(g, ap0, t, n) <==> ReachesDefault(g, ap0, r, t, n)
  {
    hide MostFrequent, UsesWildcard, CompressedBy;
    DefaultFoundIff(g, ap0, ap, r, t, n);
  }

  /** A lookahead that was an error before compression takes the default reduce after it. */
  lemma {:induction false} ErrorBecomesDefault(g: Grammar, ap0: seq<Action>, ap: seq<Action>, r: nat, t: nat, n: nat)
    requires UniqueLive(ap0) && CompressedBy(g, ap0, ap, r) && ChainEnds(g.fallback, t, n) && t < g.nsymbol
    requires g.wildcard.Some? ==> g.wildcard.value < g.nsymbol
    requires forall k | 0 <= k < |g.fallback| :: g.fallback[k] < g.nsymbol
    requires Decide(g, ap0, t, n) == ERROR_EFFECT && forall act | act in ap0 :: act.kind != ErrorAction
    ensures Decide(g, ap, t, n) == Effect(Reduce, r)
    decreases n
  {
    hide MostFrequent, UsesWildcard, CompressedBy;
    OwnAfter(g, ap0, ap, r, t);
    WildcardAfter(g, ap0, ap, r, t);
    DefaultAfter(g, ap0, ap, r);
    if HasFallback(g, t) {
      ErrorBecomesDefault(g, ap0, ap, r, g.fallback[t], n - 1);
    }
  }

  lemma NoWildcardShift(g: Grammar, ap0: seq<Action>, ap: seq<Action>, r: nat, t: nat)
    requires CompressedBy(g, ap0, ap, r)
    ensures WildcardAction(g, ap0, t).Some? ==> WildcardAction(g, ap0, t).value.kind != Shift
  {
    hide MostFrequent;
    var w := WildcardAction(g, ap0, t);
    if w.Some? {
      var k :| 0 <= k < |ap0| && ap0[k] == w.value;
    }
  }

  /** Along the fallbacks from `t` the first action by anything but rule `r` is a shift. */
  ghost predicate ShiftAhead(g: Grammar, ap0: seq<Action>, r: nat, t: nat, n: nat)
    requires ChainEnds(g.fallback, t, n)
    decreases n
  {
    var own := LiveOn(ap0, t);
    if own.Some? && !IsReduceBy(own.value, r) then own.value.kind == Shift
    else HasFallback(g, t) && ShiftAhead(g, ap0, r, g.fallback[t], n - 1)
  }

  /** Compression loses no shift; it makes one, by skipping a reduce that became the default, if
      and only if a fallback of the token shifts. */
  lemma {:induction false} ShiftsAfter(g: Grammar, ap0: seq<Action>, ap: seq<Action>, r: nat, t: nat, n: nat)
    requires UniqueLive(ap0) && CompressedBy(g, ap0, ap, r) && ChainEnds(g.fallback, t, n) && t < g.nsymbol
    requires g.wildcard.Some? ==> g.wildcard.value < g.nsymbol
    requires forall k | 0 <= k < |g.fallback| :: g.fallback[k] < g.nsymbol
    requires LiveOn(ap0, g.nsymbol).None?
    ensures Decide(g, ap0, t, n).kind == Shift ==> Decide(g, ap, t, n) == Decide(g, ap0, t, n)
    ensures Decide(g, ap, t, n).kind == Shift <==> ShiftAhead(g, ap0, r, t, n)
    ensures Decide(g, ap, t, n).kind == Shift && Decide(g, ap, t, n) != Decide(g, ap0, t, n) <==>
            Decide(g, ap0, t, n) == Effect(Reduce, r) && ShiftAhead(g, ap0, r, t, n)
    decreases n
  {
    hide MostFrequent, UsesWildcard, CompressedBy;
    if LiveOn(ap0, t).Some? && !IsReduceBy(LiveOn(ap0, t).value, r) {
      OthersPreserved(g, ap0, ap, r, t, n);
    } else {
      NoWildcardShift(g, ap0, ap, r, t);
      OwnAfter(g, ap0, ap, r, t);
      WildcardAfter(g, ap0, ap, r, t);
      DefaultAfter(g, ap0, ap, r);
      if HasFallback(g, t) {
        ShiftsAfter(g, ap0, ap, r, g.fallback[t], n - 1);
      }
    }
  }
}
