/** The sets of symbols as the source keeps them: an array with one byte per symbol. */
module ByteSets {

  /** The elements of a set are the indices of its nonzero bytes. */
  function Elements(s: seq<bv8>): (r: set<nat>)
    ensures forall e: nat :: e in r <==> e < |s| && s[e] != 0
  {
    set e: nat | e < |s| && s[e] != 0
  }

  /** Add one element and tell whether it is new. */
  method SetAdd(s: array<bv8>, e: nat) returns (added: bool)
    requires e < s.Length
    modifies s
    ensures Elements(s[..]) == old(Elements(s[..])) + {e}
    ensures added <==> e !in old(Elements(s[..]))
  {
    added := s[e] == 0;
    s[e] := 1;
  }

  /** Add the second set to the first, which may be the same one, and tell whether that changed
      it. */
  method SetUnion(s1: array<bv8>, s2: array<bv8>) returns (progress: bool)
    requires s1.Length == s2.Length
    modifies s1
    ensures Elements(s1[..]) == old(Elements(s1[..]) + Elements(s2[..]))
    ensures progress <==> !(old(Elements(s2[..])) <= old(Elements(s1[..])))
    ensures !progress ==> s1[..] == old(s1[..])
  {
    progress := false;
    for i := 0 to s1.Length
      invariant forall k: nat | k < s1.Length :: s1[k] != 0 <==> old(s1[k]) != 0 || (k < i && old(s2[k]) != 0)
      invariant forall k: nat | k < s1.Length :: s2[k] != 0 ==> old(s2[k]) != 0 || k < i
      invariant forall k: nat | i <= k < s1.Length :: s2[k] == old(s2[k])
      invariant progress <==> exists k: nat :: k < i && old(s2[k]) != 0 && old(s1[k]) == 0
      invariant !progress ==> s1[..] == old(s1[..])
    {
      if s2[i] == 0 { continue; }
      if s1[i] == 0 {
        progress := true;
        s1[i] := 1;
      }
    }
  }
}
