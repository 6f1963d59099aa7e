/** Conflicts between the actions of one state, and the double loop that resolves them. */
module Contests {
  import opened Grammars
  import opened Automata

  // ----- One conflict -----

  function Prec(g: Grammar, s: nat): int {
    if s < |g.prec| then g.prec[s] else -1
  }

  function AssocOf(g: Grammar, s: nat): Associativity {
    if s < |g.assoc| then g.assoc[s] else UnknownAssoc
  }

  function RulePrec(g: Grammar, r: nat): int {
    if r < |g.rules| && g.rules[r].precsym.Some? then Prec(g, g.rules[r].precsym.value) else -1
  }

  datatype Resolution = Resolution(x: Action, y: Action, errors: nat)

  function Resolve(g: Grammar, x: Action, y: Action): Resolution {
    if x.kind == Shift && y.kind == Shift then
      Resolution(x, y.(kind := Conflict), 1)
    else if x.kind == Shift && y.kind == Reduce then
      var px, py := Prec(g, x.sp), RulePrec(g, y.target);
      if px < 0 || py < 0 then Resolution(x, y.(kind := Conflict), 1)
      else if px > py then Resolution(x, y.(kind := RdResolved), 0)
      else if px < py then Resolution(x.(kind := ShResolved), y, 0)
      else if AssocOf(g, x.sp) == RightAssoc then Resolution(x, y.(kind := RdResolved), 0)
      else if AssocOf(g, x.sp) == LeftAssoc then Resolution(x.(kind := ShResolved), y, 0)
      else Resolution(x, y.(kind := Conflict), 1)
    else if x.kind == Reduce && y.kind == Reduce then
      var px, py := RulePrec(g, x.target), RulePrec(g, y.target);
      if px < 0 || py < 0 || px == py then Resolution(x, y.(kind := Conflict), 1)
      else if px > py then Resolution(x, y.(kind := RdResolved), 0)
      else Resolution(x.(kind := RdResolved), y, 0)
    else
      Resolution(x, y, 0)
  }

  /** The assertions of the source: a live reduce never comes before a live shift, an accept
      or an error conflicts with nothing, and a tie of precedences is broken by a declared
      associativity. */
  predicate MayMeet(g: Grammar, x: Action, y: Action) {
    && x.sp == y.sp
    && (Live(x) && Live(y) ==>
         x.kind in {Shift, Reduce} && y.kind in {Shift, Reduce} && !(x.kind == Reduce && y.kind == Shift))
    && (x.sp < |g.prec| && g.prec[x.sp] >= 0 ==> x.sp < |g.assoc| && !g.assoc[x.sp].UnknownAssoc?)
  }

  /** Of two live actions exactly one survives, and an error is counted exactly when the other
      is marked as a conflict; anything else is left alone. */
  lemma ResolveKeepsOne(g: Grammar, x: Action, y: Action)
    requires MayMeet(g, x, y)
    ensures var r := Resolve(g, x, y);
      && r.x.sp == x.sp && r.x.target == x.target && r.y.sp == y.sp && r.y.target == y.target
      && (Live(r.x) ==> r.x == x) && (Live(r.y) ==> r.y == y)
      && (Live(x) && Live(y) ==> Live(r.x) != Live(r.y))
      && (!(Live(x) && Live(y)) ==> r == Resolution(x, y, 0))
      && r.errors == (if Live(x) && Live(y) && r.y.kind == Conflict then 1 else 0)
      && (Live(x) ==> r.x.kind != Conflict)
  {
  }

  // ----- What decides a conflict -----

  /** The symbol whose declared precedence speaks for an action. */
  ghost function Spokesman(g: Grammar, x: Action): Option<nat> {
    if x.kind != Reduce then Some(x.sp) else if x.target < |g.rules| then g.rules[x.target].precsym else None
  }

  ghost predicate Ranked(g: Grammar, x: Action) {
    Spokesman(g, x).Some? && Spokesman(g, x).value < |g.prec| && g.prec[Spokesman(g, x).value] >= 0
  }

  ghost predicate Weaker(g: Grammar, x: Action, y: Action) {
    Ranked(g, x) && Ranked(g, y) && g.prec[Spokesman(g, x).value] < g.prec[Spokesman(g, y).value]
  }

  /** A shift and a reduce of the same precedence, on an operator of associativity `assoc`. */
  ghost predicate TiedBy(g: Grammar, x: Action, y: Action, assoc: Associativity) {
    && x.kind == Shift && y.kind == Reduce && Ranked(g, x) && Ranked(g, y)
    && g.prec[Spokesman(g, x).value] == g.prec[Spokesman(g, y).value]
    && x.sp < |g.assoc| && g.assoc[x.sp] == assoc
  }

  /** The later action wins: it has the higher precedence, or it reduces a left associative
      operator. */
  ghost predicate LaterWins(g: Grammar, x: Action, y: Action) {
    y.kind == Reduce && (Weaker(g, x, y) || TiedBy(g, x, y, LeftAssoc))
  }

  /** The earlier action wins by precedence or by right associativity. */
  ghost predicate EarlierWins(g: Grammar, x: Action, y: Action) {
    y.kind == Reduce && (Weaker(g, y, x) || TiedBy(g, x, y, RightAssoc))
  }

  /** How the loser of a conflict is marked. */
  ghost function LaterLoses(g: Grammar, x: Action, y: Action): Action {
    y.(kind := if EarlierWins(g, x, y) then RdResolved else Conflict)
  }

  ghost function EarlierLoses(x: Action): Action {
    x.(kind := if x.kind == Shift then ShResolved else RdResolved)
  }

  /** The higher precedence wins; between a shift and a reduce of the same precedence a left
      associative operator is reduced and a right associative one shifted.  Everything else is a
      counted conflict, which the first of the two survives. */
  lemma ResolveByPrecedence(g: Grammar, x: Action, y: Action)
    requires MayMeet(g, x, y) && Live(x) && Live(y)
    ensures Resolve(g, x, y) ==
      if LaterWins(g, x, y) then Resolution(EarlierLoses(x), y, 0)
      else Resolution(x, LaterLoses(g, x, y), if EarlierWins(g, x, y) then 0 else 1)
  {
  }

  // ----- All conflicts of one state -----

  ghost function Conflicts(s: seq<Action>): nat {
    if s == [] then 0 else Conflicts(s[..|s| - 1]) + if s[|s| - 1].kind == Conflict then 1 else 0
  }

  lemma {:induction false} ConflictsUpdate(s: seq<Action>, k: nat, x: Action)
    requires k < |s|
    ensures var before := if s[k].kind == Conflict then 1 else 0;
            var after := if x.kind == Conflict then 1 else 0;
            Conflicts(s[k := x]) == Conflicts(s) - before + after
    decreases |s|
  {
    var n := |s| - 1;
    if k < n {
      ConflictsUpdate(s[..n], k, x);
      assert s[k := x][..n] == s[..n][k := x];
    } else {
      assert s[k := x][..n] == s[..n];
    }
  }

  lemma {:induction false} NoConflicts(s: seq<Action>)
    requires forall x | x in s :: x.kind != Conflict
    ensures Conflicts(s) == 0
  {
    if s != [] {
      NoConflicts(s[..|s| - 1]);
    }
  }

  /** The list to be resolved, before resolution. */
  ghost predicate Resolvable(g: Grammar, s: seq<Action>) {
    && (forall x | x in s :: Live(x))
    && (forall i, j :: 0 <= i < j < |s| ==> s[i].sp <= s[j].sp)
    && (forall i, j :: 0 <= i < j < |s| && s[i].sp == s[j].sp ==> MayMeet(g, s[i], s[j]))
  }

  // ----- The contest for a symbol -----

  /** The actions on one symbol come one after the other; each either takes the place of the best
      so far or loses to it.  This is the best of those on the symbol of position `k`, up to `k`. */
  ghost function Best(g: Grammar, s: seq<Action>, k: nat): (c: nat)
    requires k < |s|
    ensures c <= k && s[c].sp == s[k].sp
  {
    if k == 0 || s[k - 1].sp != s[k].sp then k
    else if LaterWins(g, s[Best(g, s, k - 1)], s[k]) then k
    else Best(g, s, k - 1)
  }

  /** The action at `k` has been best and loses its place in front of position `n`. */
  ghost predicate Replaced(g: Grammar, s: seq<Action>, k: nat, n: nat)
    requires k < |s| && n <= |s|
  {
    exists m: nat :: k < m < n && s[m].sp == s[k].sp && Best(g, s, m) != k
  }

  /** What becomes of the action at `k` when the contests have come to position `n`. */
  ghost function Settled(g: Grammar, s: seq<Action>, k: nat, n: nat): Action
    requires k < |s| && n <= |s|
  {
    if k >= n then s[k]
    else if Best(g, s, k) != k then LaterLoses(g, s[Best(g, s, k - 1)], s[k])
    else if Replaced(g, s, k, n) then EarlierLoses(s[k])
    else s[k]
  }

  ghost predicate SettledUpTo(g: Grammar, s0: seq<Action>, s: seq<Action>, n: nat) {
    |s| == |s0| && n <= |s0| && forall k: nat | k < |s| :: s[k] == Settled(g, s0, k, n)
  }

  /** Resolution is the contest for every symbol. */
  ghost predicate Contest(g: Grammar, s0: seq<Action>, s: seq<Action>) {
    SettledUpTo(g, s0, s, |s0|)
  }

  ghost predicate GroupEnd(s: seq<Action>, n: nat) {
    n <= |s| && (n == 0 || n == |s| || s[n - 1].sp != s[n].sp)
  }

  lemma {:induction false} BestStays(g: Grammar, s: seq<Action>, m: nat, e: nat)
    requires m <= e < |s| && Best(g, s, e) <= m
    ensures s[m].sp == s[e].sp && Best(g, s, m) == Best(g, s, e)
    decreases e
  {
    if m < e {
      BestStays(g, s, m, e - 1);
    }
  }

  /** In front of position `n` only the best of the last symbol is alive, of its symbol. */
  lemma OthersLost(g: Grammar, s: seq<Action>, k: nat, n: nat)
    requires k < n <= |s| && s[k].sp == s[n - 1].sp && Best(g, s, n - 1) != k
    ensures !Live(Settled(g, s, k, n))
  {
    if Best(g, s, k) == k {
      assert Replaced(g, s, k, n);
    }
  }

  lemma BestLives(g: Grammar, s: seq<Action>, n: nat)
    requires 0 < n <= |s|
    ensures var c := Best(g, s, n - 1); Best(g, s, c) == c && !Replaced(g, s, c, n) && Settled(g, s, c, n) == s[c]
  {
    var c := Best(g, s, n - 1);
    BestStays(g, s, c, n - 1);
    forall m: nat | c < m < n && s[m].sp == s[c].sp ensures Best(g, s, m) == c {
      BestStays(g, s, m, n - 1);
    }
  }

  // ----- The double loop -----

  /** In front of the turn of position `p` of the outer loop the contests have come to `n`. */
  ghost predicate OuterAt(g: Grammar, s0: seq<Action>, s: seq<Action>, p: nat, n: nat) {
    && SettledUpTo(g, s0, s, n) && p <= n
    && (n > 0 ==> if Best(g, s0, n - 1) >= p then n == Best(g, s0, n - 1) + 1 else GroupEnd(s0, n))
    && (p < n ==> s0[p].sp == s0[n - 1].sp)
  }

  /** The same inside the turn, in front of position `q` of the inner loop. */
  ghost predicate InnerAt(g: Grammar, s0: seq<Action>, s: seq<Action>, p: nat, q: nat, n: nat) {
    && SettledUpTo(g, s0, s, n) && p < n && p < q <= |s0| && s0[p].sp == s0[n - 1].sp
    && var c := Best(g, s0, n - 1);
       if c == p then n == q else if c > p then n == c + 1 else GroupEnd(s0, n)
  }

  lemma SameSymbols(g: Grammar, s0: seq<Action>, s: seq<Action>, n: nat)
    requires SettledUpTo(g, s0, s, n)
    ensures forall k: nat | k < |s| ::
      s[k].sp == s0[k].sp && s[k].target == s0[k].target && (Live(s[k]) ==> s[k] == s0[k])
  {
  }

  /** The first action on a symbol changes nothing. */
  lemma FirstSettled(g: Grammar, s: seq<Action>, k: nat, p: nat)
    requires Resolvable(g, s) && p < |s| && GroupEnd(s, p) && k < |s|
    ensures Best(g, s, p) == p && Settled(g, s, k, p + 1) == Settled(g, s, k, p)
  {
    hide LaterWins, LaterLoses, EarlierLoses, MayMeet;
    if k < p {
      assert s[k].sp <= s[p - 1].sp <= s[p].sp;
      assert Replaced(g, s, k, p + 1) <==> Replaced(g, s, k, p);
    }
  }

  lemma EnterInner(g: Grammar, s0: seq<Action>, s: seq<Action>, p: nat, n: nat) returns (n': nat)
    requires Resolvable(g, s0) && OuterAt(g, s0, s, p, n) && p < |s0|
    ensures InnerAt(g, s0, s, p, p + 1, n')
  {
    hide Settled, Resolvable;
    n' := n;
    if p == n {
      n' := n + 1;
      forall k: nat | k < |s| ensures Settled(g, s0, k, n') == Settled(g, s0, k, n) {
        FirstSettled(g, s0, k, p);
      }
    }
  }

  lemma LeaveInner(g: Grammar, s0: seq<Action>, s: seq<Action>, p: nat, q: nat, n: nat)
    requires Resolvable(g, s0) && InnerAt(g, s0, s, p, q, n)
    requires q == |s0| || s0[q].sp != s0[p].sp
    ensures OuterAt(g, s0, s, p + 1, n)
  {
    if p + 1 < n {
      assert s0[p].sp <= s0[p + 1].sp <= s0[n - 1].sp;
    }
  }

  lemma InnerStep(g: Grammar, s0: seq<Action>, s: seq<Action>, p: nat, q: nat, n: nat, s': seq<Action>)
    returns (n': nat)
    requires Resolvable(g, s0) && InnerAt(g, s0, s, p, q, n) && q < |s0| && s0[q].sp == s0[p].sp
    requires s' == s[p := Resolve(g, s[p], s[q]).x][q := Resolve(g, s[p], s[q]).y]
    ensures InnerAt(g, s0, s', p, q + 1, n')
  {
    hide Resolve, LaterWins, Resolvable, Settled, Live;
    if Best(g, s0, n - 1) == p {
      n' := q + 1;
      PairSettled(g, s0, s, p, q, s');
    } else {
      n' := n;
      OthersLost(g, s0, p, n);
      ResolveDead(g, s[p], s[q]);
      assert s' == s;
    }
  }

  /** The turn of the best so far against the next action. */
  lemma PairSettled(g: Grammar, s0: seq<Action>, s: seq<Action>, p: nat, q: nat, s': seq<Action>)
    requires Resolvable(g, s0) && SettledUpTo(g, s0, s, q) && p < q < |s0| && Best(g, s0, q - 1) == p
    requires s0[q].sp == s0[p].sp
    requires s' == s[p := Resolve(g, s[p], s[q]).x][q := Resolve(g, s[p], s[q]).y]
    ensures SettledUpTo(g, s0, s', q + 1)
  {
    hide Resolve, LaterWins, LaterLoses, EarlierLoses, Best, Settled, MayMeet, Live;
    assert MayMeet(g, s0[p], s0[q]) && s0[p] in s0 && s0[q] in s0;
    BestLives(g, s0, q);
    Untouched(g, s0, q, q);
    ResolveByPrecedence(g, s0[p], s0[q]);
    forall k: nat | k < |s0| ensures s'[k] == Settled(g, s0, k, q + 1) {
      NextSettled(g, s0, k, q);
    }
  }

  lemma Untouched(g: Grammar, s: seq<Action>, k: nat, n: nat)
    requires n <= k < |s|
    ensures Settled(g, s, k, n) == s[k]
  {
  }

  lemma ResolveDead(g: Grammar, x: Action, y: Action)
    requires !Live(x)
    ensures Resolve(g, x, y) == Resolution(x, y, 0)
  {
  }

  /** What one more position changes. */
  lemma NextSettled(g: Grammar, s: seq<Action>, k: nat, q: nat)
    requires 0 < q < |s| && s[q - 1].sp == s[q].sp && k < |s|
    ensures var p := Best(g, s, q - 1);
      Settled(g, s, k, q + 1) ==
        if k == q then if LaterWins(g, s[p], s[q]) then s[q] else LaterLoses(g, s[p], s[q])
        else if k == p && LaterWins(g, s[p], s[q]) then EarlierLoses(s[p])
        else Settled(g, s, k, q)
  {
    hide LaterWins, LaterLoses, EarlierWins, EarlierLoses;
    var p := Best(g, s, q - 1);
    BestStays(g, s, p, q - 1);
    BestLives(g, s, q);
    if k < q && Best(g, s, k) == k {
      if k == p {
        if LaterWins(g, s[p], s[q]) {
          assert Best(g, s, q) == q && s[q].sp == s[k].sp;
          assert Replaced(g, s, k, q + 1);
        }
      } else {
        assert Replaced(g, s, k, q + 1) ==> Replaced(g, s, k, q) by {
          if Replaced(g, s, k, q + 1) && s[q].sp == s[k].sp {
            assert k < q - 1 && s[q - 1].sp == s[k].sp;
          }
        }
      }
    }
  }

  /** The loop itself: every pair of actions on one symbol meets, in order. */
  method ResolveConflicts(g: Grammar, s0: seq<Action>) returns (s: seq<Action>, nconflict: nat)
    requires Resolvable(g, s0)
    ensures Contest(g, s0, s) && nconflict == Conflicts(s)
  {
    hide Resolvable, Resolve, Settled, Conflicts, Best;
    s, nconflict := s0, 0;
    ghost var n: nat := 0;
    AllLive(g, s0);
    NoConflicts(s0);
    NothingSettled(g, s0);
    var p := 0;
    while p + 1 < |s|
      invariant 0 <= p && |s| == |s0| && OuterAt(g, s0, s, p, n) && nconflict == Conflicts(s)
    {
      var q := p + 1;
      n := EnterInner(g, s0, s, p, n);
      while q < |s| && s[q].sp == s[p].sp
        invariant p < q <= |s| == |s0| && InnerAt(g, s0, s, p, q, n) && nconflict == Conflicts(s)
      {
        var r := Resolve(g, s[p], s[q]);
        SameSymbols(g, s0, s, n);
        PairCounted(g, s0, s, p, q);
        n := InnerStep(g, s0, s, p, q, n, s[p := r.x][q := r.y]);
        s := s[p := r.x][q := r.y];
        nconflict := nconflict + r.errors;
        q := q + 1;
      }
      SameSymbols(g, s0, s, n);
      LeaveInner(g, s0, s, p, q, n);
      p := p + 1;
    }
    if n < |s0| {
      n := EnterInner(g, s0, s, p, n);
    }
  }

  lemma AllLive(g: Grammar, s: seq<Action>)
    requires Resolvable(g, s)
    ensures forall x | x in s :: x.kind != Conflict
  {
  }

  lemma NothingSettled(g: Grammar, s: seq<Action>)
    ensures SettledUpTo(g, s, s, 0)
  {
  }

  /** The error count is the number of actions marked as conflicts. */
  lemma PairCounted(g: Grammar, s0: seq<Action>, s: seq<Action>, p: nat, q: nat)
    requires Resolvable(g, s0) && p < q < |s| == |s0| && s0[p].sp == s0[q].sp
    requires s[p].sp == s0[p].sp && (Live(s[p]) ==> s[p] == s0[p])
    requires s[q].sp == s0[q].sp && (Live(s[q]) ==> s[q] == s0[q])
    ensures var r := Resolve(g, s[p], s[q]);
      Conflicts(s[p := r.x][q := r.y]) == Conflicts(s) + r.errors
  {
    hide Resolve, Conflicts;
    assert MayMeet(g, s0[p], s0[q]);
    assert MayMeet(g, s[p], s[q]);
    var r := Resolve(g, s[p], s[q]);
    ResolveKeepsOne(g, s[p], s[q]);
    ConflictsUpdate(s, p, r.x);
    ConflictsUpdate(s[p := r.x], q, r.y);
  }

  // ----- What the contest leaves -----

  /** Only kinds change, and only from live to dead. */
  ghost predicate OnlyKilled(s0: seq<Action>, s: seq<Action>) {
    && |s| == |s0|
    && forall k | 0 <= k < |s| :: s[k].sp == s0[k].sp && s[k].target == s0[k].target && (Live(s[k]) ==> s[k] == s0[k])
  }

  ghost predicate NoneLost(s: seq<Action>) {
    forall k | 0 <= k < |s| :: SomeLive(s, s[k].sp)
  }

  /** What resolution leaves behind: on every symbol that had an action exactly one live action,
      which is one of those it had. */
  ghost predicate ResolvedFrom(s0: seq<Action>, s: seq<Action>) {
    OnlyKilled(s0, s) && NoneLost(s) && UniqueLive(s)
  }

  lemma {:induction false} GroupOf(s: seq<Action>, k: nat) returns (e: nat)
    requires k < |s|
    ensures k <= e < |s| && s[e].sp == s[k].sp && GroupEnd(s, e + 1)
    decreases |s| - k
  {
    if k + 1 < |s| && s[k + 1].sp == s[k].sp {
      e := GroupOf(s, k + 1);
    } else {
      e := k;
    }
  }

  /** The best of all actions on its symbol is alive in the end. */
  lemma ChampionLives(g: Grammar, s0: seq<Action>, s: seq<Action>, e: nat)
    requires Resolvable(g, s0) && Contest(g, s0, s) && e < |s0| && GroupEnd(s0, e + 1)
    ensures s[Best(g, s0, e)] == s0[Best(g, s0, e)]
  {
    hide Resolvable, LaterWins, Best, LaterLoses, EarlierLoses;
    BestLives(g, s0, e + 1);
    forall m: nat | e < m < |s0| ensures s0[m].sp != s0[e].sp {
      BeyondGroup(g, s0, e, m);
    }
  }

  lemma BeyondGroup(g: Grammar, s: seq<Action>, e: nat, m: nat)
    requires Resolvable(g, s) && e < m < |s| && GroupEnd(s, e + 1)
    ensures s[m].sp != s[e].sp
  {
    hide MayMeet, Live;
    assert s[e].sp <= s[e + 1].sp && (m > e + 1 ==> s[e + 1].sp <= s[m].sp);
  }

  lemma NotBoth(g: Grammar, s: seq<Action>, i: nat, j: nat)
    requires i < j < |s| && s[i].sp == s[j].sp
    ensures !Live(Settled(g, s, i, |s|)) || !Live(Settled(g, s, j, |s|))
  {
    hide LaterWins;
    if Best(g, s, j) == j && Best(g, s, i) == i {
      assert Replaced(g, s, i, |s|);
    }
  }

  lemma ContestIsFair(g: Grammar, s0: seq<Action>, s: seq<Action>)
    requires Resolvable(g, s0) && Contest(g, s0, s)
    ensures ResolvedFrom(s0, s)
  {
    hide MayMeet, LaterWins, Best, Resolvable, Settled, Live;
    SameSymbols(g, s0, s, |s0|);
    forall k: nat | k < |s| ensures SomeLive(s, s[k].sp) {
      var e := GroupOf(s0, k);
      ChampionLives(g, s0, s, e);
      AllLiveAt(g, s0, Best(g, s0, e));
    }
    forall i: nat, j: nat | i < j < |s| && s0[i].sp == s0[j].sp ensures !Live(s[i]) || !Live(s[j]) {
      NotBoth(g, s0, i, j);
    }
  }

  lemma AllLiveAt(g: Grammar, s: seq<Action>, k: nat)
    requires Resolvable(g, s) && k < |s|
    ensures Live(s[k])
  {
    assert s[k] in s;
  }

  /** An action that is stronger than all others on its symbol survives. */
  lemma StrongestLives(g: Grammar, s0: seq<Action>, s: seq<Action>, act: Action)
    requires Resolvable(g, s0) && Contest(g, s0, s)
    requires act in s0 && act.kind in {Shift, Reduce}
    requires forall x | x in s0 && x.sp == act.sp && x != act :: Weaker(g, x, act)
    ensures act in s
  {
    hide Resolvable, Settled, Best, LaterWins;
    var k := FirstPlace(s0, act);
    var e := GroupOf(s0, k);
    FirstIsBest(g, s0, k);
    StaysBest(g, s0, k, e);
    ChampionLives(g, s0, s, e);
  }

  lemma {:induction false} FirstPlace(s: seq<Action>, act: Action) returns (k: nat)
    requires act in s
    ensures k < |s| && s[k] == act && forall i | 0 <= i < k :: s[i] != act
  {
    if s[0] == act {
      k := 0;
    } else {
      assert s == [s[0]] + s[1..];
      var j := FirstPlace(s[1..], act);
      k := j + 1;
    }
  }

  lemma FirstIsBest(g: Grammar, s: seq<Action>, k: nat)
    requires Resolvable(g, s) && k < |s| && s[k].kind in {Shift, Reduce} && forall i | 0 <= i < k :: s[i] != s[k]
    requires forall x | x in s && x.sp == s[k].sp && x != s[k] :: Weaker(g, x, s[k])
    ensures Best(g, s, k) == k
  {
    if k > 0 && s[k - 1].sp == s[k].sp {
      var c := Best(g, s, k - 1);
      assert s[c] in s && s[k] in s && MayMeet(g, s[c], s[k]);
    }
  }

  lemma {:induction false} StaysBest(g: Grammar, s: seq<Action>, k: nat, e: nat)
    requires Resolvable(g, s) && k <= e < |s| && s[e].sp == s[k].sp && Best(g, s, k) == k
    requires forall x | x in s && x.sp == s[k].sp && x != s[k] :: Weaker(g, x, s[k])
    ensures Best(g, s, e) == k
    decreases e
  {
    hide MayMeet;
    if k < e {
      assert s[k].sp <= s[e - 1].sp <= s[e].sp;
      StaysBest(g, s, k, e - 1);
      assert s[e] in s;
    }
  }

  // ----- Without precedences -----

  predicate NoPrecedences(g: Grammar) {
    forall t | 0 <= t < |g.prec| :: g.prec[t] < 0
  }

  lemma NobodyWins(g: Grammar, x: Action, y: Action)
    requires NoPrecedences(g)
    ensures !LaterWins(g, x, y) && LaterLoses(g, x, y).kind == Conflict
  {
  }

  /** Without precedences a list without a counted conflict has not changed. */
  lemma NothingCounted(g: Grammar, s0: seq<Action>, s: seq<Action>)
    requires Resolvable(g, s0) && Contest(g, s0, s) && NoPrecedences(g) && Conflicts(s) == 0
    ensures s == s0
  {
    hide Live, MayMeet, LaterWins, LaterLoses, NoPrecedences, Conflicts, Resolvable;
    NoneMarked(s);
    forall k: nat | k < |s0| ensures Best(g, s0, k) == k && (k > 0 ==> s0[k - 1].sp != s0[k].sp) {
      if k > 0 {
        NobodyWins(g, s0[Best(g, s0, k - 1)], s0[k]);
      }
      assert s[k] == Settled(g, s0, k, |s0|);
    }
    forall k: nat, m: nat | k < m < |s0| ensures s0[k].sp != s0[m].sp {
      LaterSymbol(g, s0, k, m);
    }
  }

  lemma LaterSymbol(g: Grammar, s: seq<Action>, k: nat, m: nat)
    requires Resolvable(g, s) && k < m < |s| && s[m - 1].sp != s[m].sp
    ensures s[k].sp < s[m].sp
  {
    hide MayMeet, Live;
    assert k < m - 1 ==> s[k].sp <= s[m - 1].sp;
  }

  lemma {:induction false} NoneMarked(s: seq<Action>)
    requires Conflicts(s) == 0
    ensures forall k | 0 <= k < |s| :: s[k].kind != Conflict
  {
    if s != [] {
      var init := s[..|s| - 1];
      assert forall k | 0 <= k < |init| :: init[k] == s[k];
      NoneMarked(init);
    }
  }

  // ----- Two actions on a symbol -----

  /** The order of the list: by symbol, shifts in front of reduces, reduces by rule number. */
  ghost predicate InOrder(s: seq<Action>) {
    forall i, j :: 0 <= i < j < |s| ==> s[i].sp < s[j].sp || Precedes(s[i], s[j])
  }

  ghost predicate Precedes(x: Action, y: Action) {
    x.sp == y.sp && (x.kind == Shift || (x.kind == Reduce && y.kind == Reduce && x.target < y.target))
  }

  /** Where a symbol has two actions they meet each other only. */
  lemma Duel(g: Grammar, s0: seq<Action>, s: seq<Action>, x: Action, y: Action)
    requires Resolvable(g, s0) && InOrder(s0) && Contest(g, s0, s)
    requires x in s0 && y in s0 && y.kind == Reduce && Precedes(x, y)
    requires forall z | z in s0 && z.sp == x.sp :: z == x || z == y
    ensures if LaterWins(g, x, y) then EarlierLoses(x) in s && y in s else x in s && LaterLoses(g, x, y) in s
  {
    hide Resolvable, Settled, LaterWins, LaterLoses, EarlierLoses;
    var i := FirstPlace(s0, x);
    var k := FirstPlace(s0, y);
    DuelOrder(g, s0, x, y, i, k);
    ChampionLives(g, s0, s, k);
    var c := Best(g, s0, k - 1);
    assert s0[c] in s0;
    NextSettled(g, s0, c, k);
    NextSettled(g, s0, k, k);
    SettledForGood(g, s0, k, c);
    SettledForGood(g, s0, k, k);
    assert s[c] in s && s[k] in s;
  }

  lemma DuelOrder(g: Grammar, s: seq<Action>, x: Action, y: Action, i: nat, k: nat)
    requires InOrder(s) && i < |s| && k < |s| && s[i] == x && s[k] == y && y.kind == Reduce && Precedes(x, y)
    requires forall z | z in s && z.sp == x.sp :: z == x || z == y
    ensures i < k && s[k - 1].sp == y.sp && GroupEnd(s, k + 1)
    ensures forall m: nat | m < k && s[m].sp == y.sp :: s[m] == x
  {
    assert i != k;
    assert s[k - 1] in s;
    if k + 1 < |s| {
      assert s[k + 1] in s;
    }
    forall m: nat | m < k && s[m].sp == y.sp ensures s[m] == x {
      assert s[m] in s;
    }
  }

  /** At the end of its group an action is settled for good. */
  lemma SettledForGood(g: Grammar, s: seq<Action>, e: nat, k: nat)
    requires Resolvable(g, s) && k <= e < |s| && GroupEnd(s, e + 1) && s[k].sp == s[e].sp
    ensures Settled(g, s, k, |s|) == Settled(g, s, k, e + 1)
  {
    hide Resolvable, LaterWins, LaterLoses, EarlierLoses, Best;
    forall m: nat | e < m < |s| ensures s[m].sp != s[e].sp {
      BeyondGroup(g, s, e, m);
    }
    assert Replaced(g, s, k, |s|) <==> Replaced(g, s, k, e + 1);
  }
}
