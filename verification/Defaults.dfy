/** Which rule becomes the default of a state: the one reduced by on the most tokens and, of equally
    frequent ones, the one with the least token. */
module Defaults {
  import opened Grammars
  import opened FirstSets
  import opened Automata
  import opened Contests
  import opened Actions
  import opened Compression
  import opened Machines
  import opened Completeness
  import opened Lookaheads
  import opened Products

  /** The tokens on which the list reduces by rule `r`. */
  ghost function TokensOf(ap: seq<Action>, r: nat): set<nat> {
    set act | act in ap && act.kind == Reduce && act.target == r :: act.sp
  }

  lemma OneMoreReduce(init: seq<Action>, last: Action, r: nat)
    ensures TokensOf(init + [last], r) == TokensOf(init, r) + if IsReduceBy(last, r) then {last.sp} else {}
    ensures ReducesAt(init + [last], r) == ReducesAt(init, r) + if IsReduceBy(last, r) then {|init|} else {}
  {
    var ap := init + [last];
    assert forall act :: act in ap <==> act in init || act == last;
  }

  /** A list without two live actions on a token reduces by a rule as often as on tokens. */
  lemma {:induction false} AsManyTokens(ap: seq<Action>, r: nat)
    requires UniqueLive(ap)
    ensures |TokensOf(ap, r)| == |ReducesAt(ap, r)|
  {
    hide TokensOf, ReducesAt, UniqueLive;
    if ap == [] {
      NothingReduced(r);
    } else {
      var init, last := ap[..|ap| - 1], ap[|ap| - 1];
      LastIsNew(ap, r);
      AsManyTokens(init, r);
      assert ap == init + [last];
      OneMoreReduce(init, last, r);
    }
  }

  lemma NothingReduced(r: nat)
    ensures TokensOf([], r) == {} && ReducesAt([], r) == {}
  {
  }

  lemma LastIsNew(ap: seq<Action>, r: nat)
    requires UniqueLive(ap) && ap != []
    ensures var init, last := ap[..|ap| - 1], ap[|ap| - 1];
      && UniqueLive(init) && |init| !in ReducesAt(init, r)
      && (IsReduceBy(last, r) ==> last.sp !in TokensOf(init, r))
  {
  }

  /** Resolution leaves the list sorted by token. */
  lemma SortedByToken(g: Grammar, a: Automaton, q: Sets, i: nat, ap: seq<Action>)
    requires Contested(g, a, q.f, i, ap)
    ensures forall j, k :: 0 <= j < k < |ap| ==> ap[j].sp <= ap[k].sp
  {
    hide IsRaw, Resolvable, Settled, Precedes;
    var s0 :| IsRawList(g, a, q.f, i, s0) && Resolvable(g, s0) && InOrder(s0) && Contest(g, s0, ap);
    SameSymbols(g, s0, ap, |s0|);
    SpOrder(s0);
  }

  /** No rule is reduced by on more tokens than the default rule, and one that is reduced by on as
      many starts with a greater token. */
  lemma DefaultByToken(g: Grammar, ap0: seq<Action>, ap: seq<Action>, r: nat, s: nat)
    requires UniqueLive(ap0) && CompressedBy(g, ap0, ap, r) && s != r
    requires forall j, k :: 0 <= j < k < |ap0| ==> ap0[j].sp <= ap0[k].sp
    ensures |TokensOf(ap0, s)| <= |TokensOf(ap0, r)|
    ensures |TokensOf(ap0, s)| == |TokensOf(ap0, r)| ==>
      exists t :: t in TokensOf(ap0, r) && forall u | u in TokensOf(ap0, s) :: t < u
  {
    hide UsesWildcard;
    AsManyTokens(ap0, r);
    AsManyTokens(ap0, s);
    if |TokensOf(ap0, s)| == |TokensOf(ap0, r)| {
      var k: nat :| k in ReducesAt(ap0, r) &&
        forall q: nat, j | j in ReducesAt(ap0, q) && j < k :: |ReducesAt(ap0, q)| < |ReducesAt(ap0, r)|;
      assert ap0[k].sp in TokensOf(ap0, r);
      forall u | u in TokensOf(ap0, s) ensures ap0[k].sp < u {
        var act :| act in ap0 && act.kind == Reduce && act.target == s && act.sp == u;
        var j: nat :| j < |ap0| && ap0[j] == act;
        assert j in ReducesAt(ap0, s);
      }
    }
  }

  /** The same for every state of a compressed parser: whatever its default reduces by is chosen so. */
  lemma DefaultChosen(m: Machine, q: Sets, aps0: seq<seq<Action>>, i: nat, s: nat)
    requires Generated(m, q, aps0, true) && i < |aps0| && m.aps[i] != aps0[i]
    ensures DefaultEffect(m.g, m.aps[i]).kind == Reduce
    ensures var r := DefaultEffect(m.g, m.aps[i]).target; s != r ==>
      && |TokensOf(aps0[i], s)| <= |TokensOf(aps0[i], r)|
      && (|TokensOf(aps0[i], s)| == |TokensOf(aps0[i], r)| ==>
            exists t :: t in TokensOf(aps0[i], r) && forall u | u in TokensOf(aps0[i], s) :: t < u)
  {
    hide Usable, Collection, FirstSetsOf, ExactFollow, CompressedBy, UsesWildcard, Contested, IsRaw, UniqueLive;
    assert ActionsFor(m.g, m.a, q.f, i, aps0[i]) && ListMade(m.g, aps0[i], m.aps[i], true);
    SortedByToken(m.g, m.a, q, i, aps0[i]);
    var r: nat :| CompressedBy(m.g, aps0[i], m.aps[i], r);
    DefaultAfter(m.g, aps0[i], m.aps[i], r);
    if s != r {
      DefaultByToken(m.g, aps0[i], m.aps[i], r, s);
    }
  }
}
