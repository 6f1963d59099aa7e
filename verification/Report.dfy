/** Renumbering of the states and emission of the tables. */
module Report {
  import opened Grammars
  import opened Automata
  import opened Compression
  import opened ActTabs

  /** State `i` gets number `num[i]`, and `sorted[s]` is the state numbered `s`; the start state
      keeps number 0. */
  ghost predicate Numbering(n: nat, num: seq<nat>, sorted: seq<nat>) {
    && |num| == n && |sorted| == n
    && (forall i: nat | i < n :: num[i] < n && sorted[num[i]] == i)
    && (forall s: nat | s < n :: sorted[s] < n && num[sorted[s]] == s)
    && (n > 0 ==> num[0] == 0)
  }

  /** The integer for an effect: a state number, a rule number above the states, error, accept. */
  function EffectCode(num: seq<nat>, nrule: nat, e: Effect): int {
    match e.kind
    case Shift => if e.target < |num| then num[e.target] else 0
    case Reduce => e.target + |num|
    case ErrorAction => |num| + nrule
    case Accept => |num| + nrule + 1
    case _ => -1
  }

  function ComputeAction(num: seq<nat>, nrule: nat, act: Action): int {
    EffectCode(num, nrule, EffectOf(act))
  }

  predicate InTransaction(g: Grammar, isTkn: bool, sp: nat) {
    if isTkn then sp < g.nterminal else g.nterminal <= sp < g.nsymbol
  }

  /** The transactions of one kind of one state, in list order. */
  function Entries(g: Grammar, num: seq<nat>, ap: seq<Action>, isTkn: bool): seq<Slot> {
    if ap == [] then []
    else
      var n := |ap| - 1;
      Entries(g, num, ap[..n], isTkn) +
      if InTransaction(g, isTkn, ap[n].sp) && Live(ap[n])
      then [Slot(ap[n].sp, ComputeAction(num, |g.rules|, ap[n]))]
      else []
  }

  /** The default of a state: its last live action on the symbol past the end, else an error. */
  function DefaultOf(g: Grammar, num: seq<nat>, ap: seq<Action>): int {
    if ap == [] then |num| + |g.rules|
    else
      var n := |ap| - 1;
      if Live(ap[n]) && ap[n].sp >= g.nsymbol then ComputeAction(num, |g.rules|, ap[n]) else DefaultOf(g, num, ap[..n])
  }

  // ----- Entries and live actions -----

  lemma {:induction false} EntriesMembers(g: Grammar, num: seq<nat>, ap: seq<Action>, isTkn: bool, x: nat)
    ensures HasLookahead(Entries(g, num, ap, isTkn), x) <==>
      InTransaction(g, isTkn, x) && exists k :: 0 <= k < |ap| && Live(ap[k]) && ap[k].sp == x
    ensures forall k | 0 <= k < |Entries(g, num, ap, isTkn)| ::
      Entries(g, num, ap, isTkn)[k].lookahead >= 0 && Entries(g, num, ap, isTkn)[k].action >= 0
  {
    if ap != [] {
      var n := |ap| - 1;
      EntriesMembers(g, num, ap[..n], isTkn, x);
      var before, after := Entries(g, num, ap[..n], isTkn), Entries(g, num, ap, isTkn);
      if HasLookahead(after, x) {
        var k :| 0 <= k < |after| && after[k].lookahead == x;
        if k < |before| {
          assert before[k].lookahead == x;
          var j :| 0 <= j < |ap[..n]| && Live(ap[..n][j]) && ap[..n][j].sp == x;
          assert ap[j] == ap[..n][j];
        }
      }
      if InTransaction(g, isTkn, x) && exists k :: 0 <= k < |ap| && Live(ap[k]) && ap[k].sp == x {
        var k :| 0 <= k < |ap| && Live(ap[k]) && ap[k].sp == x;
        if k < n {
          assert ap[..n][k] == ap[k];
          var j :| 0 <= j < |before| && before[j].lookahead == x;
          assert after[j].lookahead == x;
        } else {
          assert after[|before|].lookahead == x;
        }
      }
    }
  }

  lemma {:induction false} EntriesAction(g: Grammar, num: seq<nat>, ap: seq<Action>, isTkn: bool, j: nat)
    requires j < |Entries(g, num, ap, isTkn)|
    ensures exists k :: (0 <= k < |ap| && Live(ap[k]) && InTransaction(g, isTkn, ap[k].sp) &&
                         Entries(g, num, ap, isTkn)[j] == Slot(ap[k].sp, ComputeAction(num, |g.rules|, ap[k])))
  {
    var n := |ap| - 1;
    var before := Entries(g, num, ap[..n], isTkn);
    if j < |before| {
      EntriesAction(g, num, ap[..n], isTkn, j);
      var k :| 0 <= k < |ap[..n]| && Live(ap[..n][k]) && InTransaction(g, isTkn, ap[..n][k].sp) &&
        before[j] == Slot(ap[..n][k].sp, ComputeAction(num, |g.rules|, ap[..n][k]));
      assert ap[k] == ap[..n][k];
    }
  }

  lemma {:induction false} DefaultIsEffect(g: Grammar, num: seq<nat>, ap: seq<Action>)
    requires UniqueLive(ap) && forall act | act in ap && Live(act) :: act.sp <= g.nsymbol
    ensures DefaultOf(g, num, ap) == EffectCode(num, |g.rules|, DefaultEffect(g, ap))
  {
    if ap != [] {
      var n := |ap| - 1;
      assert ap[n] in ap;
      if Live(ap[n]) && ap[n].sp >= g.nsymbol {
        LiveOnUnique(ap, ap[n]);
      } else {
        DefaultIsEffect(g, num, ap[..n]);
        var d := LiveOn(ap, g.nsymbol);
        if d.Some? {
          var k :| 0 <= k < |ap| && ap[k] == d.value;
          assert ap[..n][k] == ap[k];
          LiveOnUnique(ap[..n], d.value);
        } else {
          assert LiveOn(ap[..n], g.nsymbol).None?;
        }
      }
    }
  }

  // ----- ResortStates -----

  datatype Counts = Counts(nTknAct: nat, nNtAct: nat, iDflt: int)

  method CountActions(g: Grammar, num: seq<nat>, ap: seq<Action>) returns (c: Counts)
    requires g.nterminal <= g.nsymbol
    ensures c == Counts(|Entries(g, num, ap, true)|, |Entries(g, num, ap, false)|, DefaultOf(g, num, ap))
  {
    var t, n, d := 0, 0, |num| + |g.rules|;
    for k := 0 to |ap|
      invariant t == |Entries(g, num, ap[..k], true)| && n == |Entries(g, num, ap[..k], false)|
      invariant d == DefaultOf(g, num, ap[..k])
    {
      assert ap[..k + 1][..k] == ap[..k];
      if ComputeAction(num, |g.rules|, ap[k]) >= 0 {
        if ap[k].sp < g.nterminal { t := t + 1; }
        else if ap[k].sp < g.nsymbol { n := n + 1; }
        else { d := ComputeAction(num, |g.rules|, ap[k]); }
      }
    }
    assert ap[..|ap|] == ap;
    c := Counts(t, n, d);
  }

  method CountStates(g: Grammar, aps: seq<seq<Action>>, num0: seq<nat>) returns (counts: seq<Counts>)
    requires g.nterminal <= g.nsymbol
    ensures |counts| == |aps|
    ensures forall i | 0 <= i < |aps| ::
      counts[i] ==
      Counts(|Entries(g, num0, aps[i], true)|, |Entries(g, num0, aps[i], false)|, DefaultOf(g, num0, aps[i]))
  {
    counts := [];
    for i := 0 to |aps|
      invariant |counts| == i
      invariant forall k | 0 <= k < i ::
        counts[k] ==
        Counts(|Entries(g, num0, aps[k], true)|, |Entries(g, num0, aps[k], false)|, DefaultOf(g, num0, aps[k]))
    {
      var c := CountActions(g, num0, aps[i]);
      counts := counts + [c];
    }
  }

  /** Each state gets its place in the sorted list as its number. */
  method Renumber(num0: seq<nat>, order: seq<nat>) returns (num: seq<nat>)
    requires |num0| == |order| && IsPermutation(order)
    requires order != [] ==> order[0] == 0
    ensures Numbering(|order|, num, order)
  {
    num := num0;
    for s := 0 to |order|
      invariant |num| == |order|
      invariant forall k: nat | k < s :: num[order[k]] == k
    {
      num := num[order[s] := s];
    }
    PermutationCovers(order);
    forall i: nat | i < |order| ensures num[i] < |order| && order[num[i]] == i {
      assert i in order;
      var s: nat :| s < |order| && order[s] == i;
    }
  }

  ghost predicate IsPermutation(order: seq<nat>) {
    && (forall s: nat | s < |order| :: order[s] < |order|)
    && (forall s: nat, u: nat | s < u < |order| :: order[s] != order[u])
  }

  ghost function Range(n: nat): (r: set<nat>)
    ensures |r| == n && forall i: nat :: i in r <==> i < n
  {
    if n == 0 then {} else Range(n - 1) + {n - 1}
  }

  ghost function Members(order: seq<nat>): set<nat> {
    set i | i in order
  }

  lemma {:induction false} MembersSize(order: seq<nat>)
    requires forall s: nat, u: nat | s < u < |order| :: order[s] != order[u]
    ensures |Members(order)| == |order|
  {
    if order != [] {
      var init, last := order[..|order| - 1], order[|order| - 1];
      forall s: nat, u: nat | s < u < |init| ensures init[s] != init[u] { assert order[s] != order[u]; }
      MembersSize(init);
      assert order == init + [last];
      assert Members(order) == Members(init) + {last};
      assert last !in init;
    }
  }

  /** A list of n distinct numbers below n contains every number below n. */
  lemma PermutationCovers(order: seq<nat>)
    requires IsPermutation(order)
    ensures forall i: nat | i < |order| :: i in order
  {
    MembersSize(order);
    SubsetSameSize(Members(order), Range(|order|));
    forall i: nat | i < |order| ensures i in order {
      assert i in Members(order);
    }
  }
}
