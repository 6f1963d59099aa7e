/** The growing hash tables with chaining that hold symbols, states and configurations. */
module HashTables {
  import opened Grammars
  import opened Automata

  // ----- Keys -----

  /** What the comparison and the hash of a key type must be: equal keys hash alike. */
  ghost predicate Compatible<K(!new)>(cmp: (K, K) -> int, hash: K -> int) {
    && (forall a :: cmp(a, a) == 0)
    && (forall a, b :: cmp(a, b) == 0 ==> cmp(b, a) == 0 && hash(a) == hash(b))
    && (forall a, b, c :: cmp(a, b) == 0 && cmp(b, c) == 0 ==> cmp(a, c) == 0)
  }

  /** Signed 32-bit arithmetic wraps around. */
  function Wrap(x: int): int {
    (x + 0x8000_0000) % 0x1_0000_0000 - 0x8000_0000
  }

  function StateHashFrom(h: int, key: seq<Item>): int
    decreases |key|
  {
    if key == [] then h else StateHashFrom(Wrap(h * 571 + key[0].rule * 37 + key[0].dot), key[1..])
  }

  function StateHash(key: seq<Item>): int {
    StateHashFrom(0, key)
  }

  function StateCmp(a: seq<Item>, b: seq<Item>): int {
    if a == [] && b == [] then 0
    else if b == [] then 1
    else if a == [] then -1
    else
      var rc := ItemCmp(a[0], b[0]);
      if rc != 0 then rc else StateCmp(a[1..], b[1..])
  }

  lemma {:induction false} StateCmpIsEquality(a: seq<Item>, b: seq<Item>)
    ensures StateCmp(a, b) == 0 <==> a == b
  {
    if a != [] && b != [] {
      StateCmpIsEquality(a[1..], b[1..]);
      assert a == [a[0]] + a[1..] && b == [b[0]] + b[1..];
    }
  }

  lemma StateKeysCompatible()
    ensures Compatible(StateCmp, StateHash)
  {
    forall a, b ensures StateCmp(a, b) == 0 <==> a == b {
      StateCmpIsEquality(a, b);
    }
  }

  function ConfigHash(it: Item): int {
    Wrap(it.rule * 37 + it.dot)
  }

  lemma ConfigKeysCompatible()
    ensures Compatible(ItemCmp, ConfigHash)
  {
    assert forall a, b :: ItemCmp(a, b) == 0 ==> a == b;
  }

  // ----- The table -----

  /** `next` is the index of the next node of the chain, -1 at its end. */
  datatype Entry<+K, +V> = Entry(key: K, data: V, next: int)

  class HashTable<K(!new), V> {
    const cmp: (K, K) -> int
    const hash: K -> int
    var size: nat
    var tbl: seq<Entry<K, V>>
    var ht: array<int>

    /** `hash & (size - 1)` for a size that is a power of two. */
    function Bucket(key: K, n: nat): nat
      requires n > 0
    {
      hash(key) % n
    }

    /** The latest node in bucket `h`, -1 if there is none. */
    ghost function Latest(nodes: seq<Entry<K, V>>, n: nat, h: int): (r: int)
      requires n > 0
      ensures -1 <= r < |nodes|
      ensures r >= 0 ==> Bucket(nodes[r].key, n) == h
      ensures forall j | r < j < |nodes| :: Bucket(nodes[j].key, n) != h
    {
      if nodes == [] then -1
      else if Bucket(nodes[|nodes| - 1].key, n) == h then |nodes| - 1
      else Latest(nodes[..|nodes| - 1], n, h)
    }

    /** Every chain goes from the latest node of its bucket to the earliest. */
    ghost predicate Chained(nodes: seq<Entry<K, V>>, heads: seq<int>, n: nat)
      requires n > 0
    {
      && |heads| == n
      && (forall h | 0 <= h < n :: heads[h] == Latest(nodes, n, h))
      && (forall i | 0 <= i < |nodes| :: nodes[i].next == Latest(nodes[..i], n, Bucket(nodes[i].key, n)))
    }

    ghost predicate NoTwins(nodes: seq<Entry<K, V>>) {
      forall i, j | 0 <= i < j < |nodes| :: cmp(nodes[i].key, nodes[j].key) != 0
    }

    ghost predicate Valid()
      reads this, ht
    {
      && Compatible(cmp, hash)
      && size > 0 && |tbl| <= size && ht.Length == size
      && Chained(tbl, ht[..], size)
      && NoTwins(tbl)
    }

    ghost function Pairs(nodes: seq<Entry<K, V>>): (s: seq<(K, V)>)
      ensures |s| == |nodes| && forall i | 0 <= i < |s| :: s[i] == (nodes[i].key, nodes[i].data)
    {
      seq(|nodes|, i requires 0 <= i < |nodes| => (nodes[i].key, nodes[i].data))
    }

    /** The pairs in the order of their insertion. */
    ghost function Contents(): seq<(K, V)>
      reads this
    {
      Pairs(tbl)
    }

    constructor (cmp: (K, K) -> int, hash: K -> int, size: nat)
      requires Compatible(cmp, hash) && size > 0
      ensures Valid() && Contents() == [] && fresh(ht) && this.cmp == cmp && this.hash == hash
    {
      this.cmp, this.hash, this.size := cmp, hash, size;
      tbl := [];
      ht := new int[size](_ => -1);
    }

    /** Walk the chain of the key's bucket to the node with an equal key, -1 if there is none. */
    method Walk(key: K) returns (np: int)
      requires Valid()
      ensures -1 <= np < |tbl|
      ensures np >= 0 ==> cmp(tbl[np].key, key) == 0
      ensures np < 0 ==> forall i | 0 <= i < |tbl| :: cmp(tbl[i].key, key) != 0
    {
      var h := Bucket(key, size);
      np := ht[h];
      assert tbl[..|tbl|] == tbl;
      ghost var n := |tbl|;
      while np >= 0 && cmp(tbl[np].key, key) != 0
        invariant 0 <= n <= |tbl| && np == Latest(tbl[..n], size, h)
        invariant forall i | n <= i < |tbl| :: cmp(tbl[i].key, key) != 0
        decreases np
      {
        ghost var np0 := np;
        forall i | np < i < n ensures cmp(tbl[i].key, key) != 0 {
          assert tbl[..n][i] == tbl[i];
        }
        assert tbl[..n][np] == tbl[np];
        np := tbl[np].next;
        n := np0;
      }
      if np < 0 {
        forall i | 0 <= i < n ensures cmp(tbl[i].key, key) != 0 {
          assert tbl[..n][i] == tbl[i];
        }
      }
    }

    /** The data stored under the key. */
    method Find(key: K) returns (r: Option<V>)
      requires Valid()
      ensures r.None? <==> forall i | 0 <= i < |Contents()| :: cmp(Contents()[i].0, key) != 0
      ensures forall i | 0 <= i < |Contents()| && cmp(Contents()[i].0, key) == 0 :: r == Some(Contents()[i].1)
    {
      var np := Walk(key);
      if np < 0 { return None; }
      assert Contents()[np] == (tbl[np].key, tbl[np].data);
      r := Some(tbl[np].data);
    }

    /** Put node `i` of `nodes` at the head of its chain. */
    method Link(nodes: seq<Entry<K, V>>, heads: array<int>, key: K, data: V) returns (nodes': seq<Entry<K, V>>)
      requires heads.Length > 0 && Chained(nodes, heads[..], heads.Length)
      modifies heads
      ensures Chained(nodes', heads[..], heads.Length)
      ensures Pairs(nodes') == Pairs(nodes) + [(key, data)]
    {
      var n := heads.Length;
      var h := Bucket(key, n);
      ghost var heads0 := heads[..];
      nodes' := nodes + [Entry(key, data, heads[h])];
      heads[h] := |nodes|;
      assert nodes'[..|nodes|] == nodes;
      forall i | 0 <= i < |nodes| ensures nodes'[..i] == nodes[..i] {}
    }

    lemma SamePairs(nodes: seq<Entry<K, V>>, others: seq<Entry<K, V>>)
      requires NoTwins(nodes) && Pairs(others) == Pairs(nodes)
      ensures NoTwins(others)
    {
      assert forall i | 0 <= i < |nodes| :: Pairs(others)[i].0 == others[i].key == nodes[i].key;
    }

    lemma NewPair(nodes: seq<Entry<K, V>>, others: seq<Entry<K, V>>, key: K, data: V)
      requires NoTwins(nodes) && Pairs(others) == Pairs(nodes) + [(key, data)]
      requires forall i | 0 <= i < |nodes| :: cmp(nodes[i].key, key) != 0
      ensures NoTwins(others)
    {
      forall i | 0 <= i < |others| ensures others[i].key == if i < |nodes| then nodes[i].key else key {
        assert Pairs(others)[i].0 == others[i].key;
      }
    }

    /** The table of double size: all nodes are linked anew. */
    method Grow()
      requires Valid()
      modifies this`size, this`tbl, this`ht
      ensures Valid() && fresh(ht) && size == 2 * old(size) && Contents() == old(Contents())
    {
      hide Latest, Compatible, NoTwins;
      var n := size * 2;
      var heads := new int[n](_ => -1);
      var nodes: seq<Entry<K, V>> := [];
      for i := 0 to |tbl|
        invariant |nodes| == i && fresh(heads) && heads.Length == n
        invariant tbl == old(tbl) && size == old(size) && ht == old(ht)
        invariant Chained(nodes, heads[..], n)
        invariant Pairs(nodes) == Pairs(tbl)[..i]
      {
        nodes := Link(nodes, heads, tbl[i].key, tbl[i].data);
      }
      SamePairs(tbl, nodes);
      tbl, ht, size := nodes, heads, n;
    }

    /** A new pair, unless there is one with an equal key. */
    method Insert(key: K, data: V) returns (ok: bool)
      requires Valid()
      modifies this`size, this`tbl, this`ht, ht
      ensures Valid() && (ht == old(ht) || fresh(ht))
      ensures ok <==> forall i | 0 <= i < |old(Contents())| :: cmp(old(Contents())[i].0, key) != 0
      ensures Contents() == if ok then old(Contents()) + [(key, data)] else old(Contents())
    {
      hide Chained, Latest, Compatible, NoTwins;
      var np := Walk(key);
      if np >= 0 {
        assert Contents()[np].0 == tbl[np].key;
        return false;
      }
      ghost var before := tbl;
      if |tbl| >= size {
        Grow();
      }
      SameKeys(before, tbl, key);
      var nodes := Link(tbl, ht, key, data);
      NewPair(tbl, nodes, key, data);
      tbl := nodes;
      ok := true;
    }

    lemma SameKeys(nodes: seq<Entry<K, V>>, others: seq<Entry<K, V>>, key: K)
      requires Pairs(others) == Pairs(nodes) && forall i | 0 <= i < |nodes| :: cmp(nodes[i].key, key) != 0
      ensures forall i | 0 <= i < |others| :: cmp(others[i].key, key) != 0
      ensures forall i | 0 <= i < |nodes| :: Pairs(nodes)[i].0 == nodes[i].key
    {
      assert forall i | 0 <= i < |nodes| :: Pairs(others)[i].0 == others[i].key == nodes[i].key;
    }

    method Clear()
      requires Valid()
      modifies this`tbl, ht
      ensures Valid() && ht == old(ht) && Contents() == []
    {
      if |tbl| == 0 { return; }
      for i := 0 to size
        invariant size == old(size) && ht == old(ht) && ht.Length == size
        invariant forall k | 0 <= k < i :: ht[k] == -1
      {
        ht[i] := -1;
      }
      tbl := [];
    }

    /** All data in the order of insertion. */
    method ArrayOf() returns (s: seq<V>)
      requires Valid()
      ensures |s| == |Contents()| && forall i | 0 <= i < |s| :: s[i] == Contents()[i].1
    {
      s := [];
      for i := 0 to |tbl|
        invariant |s| == i && forall k | 0 <= k < i :: s[k] == tbl[k].data
      {
        s := s + [tbl[i].data];
      }
    }
  }
}
