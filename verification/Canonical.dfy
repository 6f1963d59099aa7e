/** The collection of states is the canonical one: its kernels are exactly the sets of items
    that a sequence of symbols leads to from the rules of the start symbol. */
module Canonical {
  import opened Grammars
  import opened FirstSets
  import opened Automata

  ghost predicate CanMove(g: Grammar, c: set<Item>, x: Symbol) {
    exists it :: it in c && Next(g, it) == Some(x)
  }

  /** `path` leads from the start items to the kernel `k`. */
  ghost predicate KernelOn(g: Grammar, path: seq<Symbol>, k: set<Item>)
    decreases |path|
  {
    if path == [] then k == StartItems(g)
    else exists k0, c0 :: KernelStep(g, path, k0, c0, k)
  }

  ghost predicate KernelStep(g: Grammar, path: seq<Symbol>, k0: set<Item>, c0: set<Item>, k: set<Item>)
    requires path != []
    decreases |path|, 0
  {
    var n := |path| - 1;
    && IsClosure(g, k0, c0) && CanMove(g, c0, path[n]) && k == GotoSet(g, c0, path[n])
    && KernelOn(g, path[..n], k0)
  }

  lemma ClosureUnique(g: Grammar, k: set<Item>, c: set<Item>, d: set<Item>)
    requires IsClosure(g, k, c) && IsClosure(g, k, d)
    ensures c == d
  {
  }

  lemma {:induction false} PathHasState(g: Grammar, lam: set<nat>, first: First, a: Automaton, path: seq<Symbol>,
        k: set<Item>) returns (j: nat)
    requires Collection(g, lam, first, a) && KernelOn(g, path, k)
    ensures j < |a.states| && ItemSet(a.states[j].basis) == k
    decreases |path|
  {
    hide IsClosure, ConfigOk, ShiftOk, KeysOk;
    if path == [] {
      assert Placed(g, a, 0);
      j := 0;
    } else {
      var n := |path| - 1;
      var k0, c0 :| KernelStep(g, path, k0, c0, k);
      var i := PathHasState(g, lam, first, a, path[..n], k0);
      assert StateOk(g, a.states[i]) && Done(g, a, i);
      ClosureUnique(g, k0, c0, ItemSet(a.states[i].items));
      var it :| it in c0 && Next(g, it) == Some(path[n]);
      assert it in a.states[i].items;
      assert DoneSymbol(g, a, i, path[n]);
      j :| DoneVia(g, a, i, path[n], j);
    }
  }

  lemma {:induction false} StateHasPath(g: Grammar, lam: set<nat>, first: First, a: Automaton,
        j: nat) returns (path: seq<Symbol>)
    requires Partial(g, lam, first, a) && j < |a.states|
    ensures KernelOn(g, path, ItemSet(a.states[j].basis))
    decreases j
  {
    hide IsClosure, ConfigOk, ShiftOk, KeysOk;
    assert Placed(g, a, j);
    if j == 0 {
      path := [];
    } else {
      var i: nat, x :| i < j && Leads(g, a, i, x, j);
      var before := StateHasPath(g, lam, first, a, i);
      path := before + [x];
      assert path[..|path| - 1] == before;
      assert StateOk(g, a.states[i]);
      var it :| it in a.states[i].items && Next(g, it) == Some(x);
      assert it in ItemSet(a.states[i].items);
      assert KernelStep(g, path, ItemSet(a.states[i].basis), ItemSet(a.states[i].items), ItemSet(a.states[j].basis));
    }
  }

  ghost predicate CanonicalKernel(g: Grammar, k: set<Item>) {
    exists path :: KernelOn(g, path, k)
  }

  ghost predicate StateKernel(a: Automaton, k: set<Item>) {
    exists j :: 0 <= j < |a.states| && ItemSet(a.states[j].basis) == k
  }

  /** The kernels of the states are exactly the kernels of the canonical LR(0) collection, and no
      two states share one. */
  lemma CollectionIsCanonical(g: Grammar, lam: set<nat>, first: First, a: Automaton)
    requires Collection(g, lam, first, a)
    ensures forall k :: CanonicalKernel(g, k) <==> StateKernel(a, k)
    ensures forall i, j | 0 <= i < j < |a.states| :: ItemSet(a.states[i].basis) != ItemSet(a.states[j].basis)
  {
    hide KernelOn, Done;
    forall k ensures CanonicalKernel(g, k) <==> StateKernel(a, k) {
      if CanonicalKernel(g, k) {
        var path :| KernelOn(g, path, k);
        var j := PathHasState(g, lam, first, a, path, k);
      }
      if StateKernel(a, k) {
        var j :| 0 <= j < |a.states| && ItemSet(a.states[j].basis) == k;
        var path := StateHasPath(g, lam, first, a, j);
      }
    }
    forall i, j | 0 <= i < j < |a.states| ensures ItemSet(a.states[i].basis) != ItemSet(a.states[j].basis) {
      if ItemSet(a.states[i].basis) == ItemSet(a.states[j].basis) {
        SameKernelSameState(g, lam, first, a, i, j);
      }
    }
  }
}
