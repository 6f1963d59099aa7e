/** The preprocessor that blanks out conditional text in place. */
module Preprocess {

  // ----- What the directives mean -----

  /** The text is followed by a NUL. */
  function CharAt(t: seq<char>, i: nat): char {
    if i < |t| then t[i] else '\0'
  }

  predicate IsSpace(c: char) {
    c as int in {9, 10, 11, 12, 13, 32}
  }

  predicate Begins(t: seq<char>, i: nat, word: string) {
    i + |word| <= |t| && t[i..i + |word|] == word && IsSpace(CharAt(t, i + |word|))
  }

  function SkipSpaces(t: seq<char>, j: nat): (r: nat)
    requires j <= |t|
    ensures j <= r <= |t|
    decreases |t| - j
  {
    if j < |t| && IsSpace(t[j]) then SkipSpaces(t, j + 1) else j
  }

  function WordEnd(t: seq<char>, j: nat): (r: nat)
    requires j <= |t|
    ensures j <= r <= |t|
    decreases |t| - j
  {
    if j < |t| && !IsSpace(t[j]) then WordEnd(t, j + 1) else j
  }

  /** The macro name is the first word after the directive, on whatever line it is. */
  function MacroAt(t: seq<char>, i: nat): seq<char> {
    if i + 7 <= |t| then var j := SkipSpaces(t, i + 7); t[j..WordEnd(t, j)] else []
  }

  datatype Directive = NoDirective | EndIf | If(holds: bool)

  predicate LineStart(t: seq<char>, i: nat) {
    i == 0 || (i <= |t| && t[i - 1] == '\n')
  }

  function DirectiveAt(t: seq<char>, defs: seq<string>, i: nat): Directive {
    if !LineStart(t, i) then NoDirective
    else if Begins(t, i, "%endif") then EndIf
    else if Begins(t, i, "%ifdef") then If(MacroAt(t, i) in defs)
    else if Begins(t, i, "%ifndef") then If(MacroAt(t, i) !in defs)
    else NoDirective
  }

  /** The conditions around position `i`, the innermost last; an %endif without its condition
      is ignored. */
  function Conditions(t: seq<char>, defs: seq<string>, i: nat): seq<bool> {
    if i == 0 then []
    else
      var outer := Conditions(t, defs, i - 1);
      match DirectiveAt(t, defs, i - 1)
      case NoDirective => outer
      case EndIf => if outer == [] then [] else outer[..|outer| - 1]
      case If(holds) => outer + [holds]
  }

  predicate AllHold(conditions: seq<bool>) {
    forall k | 0 <= k < |conditions| :: conditions[k]
  }

  predicate OnDirective(t: seq<char>, defs: seq<string>, i: nat) {
    i < |t| && t[i] != '\n' &&
    if LineStart(t, i) then DirectiveAt(t, defs, i) != NoDirective else i > 0 && OnDirective(t, defs, i - 1)
  }

  /** What becomes of one character: newlines stay, directives and text under a condition that
      does not hold turn into spaces, everything else stays. */
  function Processed(t: seq<char>, defs: seq<string>, i: nat): char
    requires i < |t|
  {
    if t[i] == '\n' then '\n'
    else if OnDirective(t, defs, i) || !AllHold(Conditions(t, defs, i)) then ' '
    else t[i]
  }

  /** The counter of the source: how deep the text is inside the outermost condition that does
      not hold. */
  function Excluded(conditions: seq<bool>): nat {
    if conditions == [] then 0
    else
      var n := |conditions| - 1;
      if Excluded(conditions[..n]) > 0 then Excluded(conditions[..n]) + 1
      else if conditions[n] then 0 else 1
  }

  lemma {:induction false} ExcludedIffFalse(conditions: seq<bool>)
    ensures Excluded(conditions) == 0 <==> AllHold(conditions)
  {
    if conditions != [] {
      var n := |conditions| - 1;
      ExcludedIffFalse(conditions[..n]);
      assert conditions == conditions[..n] + [conditions[n]];
    }
  }

  // ----- Scanning -----

  method SkipSpace(z: array<char>, j0: nat) returns (j: nat)
    requires j0 <= z.Length
    ensures j == SkipSpaces(z[..], j0) <= z.Length
  {
    j := j0;
    while j < z.Length && IsSpace(z[j])
      invariant j <= z.Length && SkipSpaces(z[..], j) == SkipSpaces(z[..], j0)
    {
      j := j + 1;
    }
  }

  method SkipWord(z: array<char>, j0: nat) returns (j: nat)
    requires j0 <= z.Length
    ensures j == WordEnd(z[..], j0) <= z.Length
  {
    j := j0;
    while j < z.Length && !IsSpace(z[j])
      invariant j <= z.Length && WordEnd(z[..], j) == WordEnd(z[..], j0)
    {
      j := j + 1;
    }
  }

  method IsDefined(defs: seq<string>, name: seq<char>) returns (found: bool)
    ensures found <==> name in defs
  {
    for k := 0 to |defs|
      invariant name !in defs[..k]
    {
      if defs[k] == name { return true; }
      assert defs[..k + 1] == defs[..k] + [defs[k]];
    }
    assert defs[..|defs|] == defs;
    found := false;
  }

  /** Blank a range, newlines excepted. */
  method BlankRange(z: array<char>, start: nat, end: nat)
    requires start <= end <= z.Length
    modifies z
    ensures forall k | 0 <= k < z.Length ::
      z[k] == if start <= k < end && old(z[k]) != '\n' then ' ' else old(z[k])
  {
    for j := start to end
      invariant forall k | 0 <= k < z.Length ::
        z[k] == if start <= k < j && old(z[k]) != '\n' then ' ' else old(z[k])
    {
      if z[j] != '\n' { z[j] := ' '; }
    }
  }

  /** Blank the rest of a line. */
  method BlankLine(z: array<char>, i: nat) returns (end: nat)
    requires i <= z.Length
    modifies z
    ensures i <= end <= z.Length && (end == z.Length || old(z[end]) == '\n')
    ensures forall k | i <= k < end :: old(z[k]) != '\n' && z[k] == ' '
    ensures forall k | 0 <= k < z.Length && !(i <= k < end) :: z[k] == old(z[k])
  {
    end := i;
    while end < z.Length && z[end] != '\n'
      invariant i <= end <= z.Length
      invariant forall k | i <= k < end :: old(z[k]) != '\n' && z[k] == ' '
      invariant forall k | 0 <= k < z.Length && !(i <= k < end) :: z[k] == old(z[k])
    {
      z[end] := ' ';
      end := end + 1;
    }
  }

  // ----- The pass -----

  /** The part of the text in front of position `i` that is finished. */
  function Finished(i: nat, exclude: nat, start: nat): nat {
    if exclude > 0 then start else i
  }

  /** The state in front of position `i`: finished up to `start` while text is being excluded
      and up to `i` otherwise; the rest of a directive line is blank up to `eol`; the text behind
      is as it was. */
  ghost predicate Progress(t: seq<char>, defs: seq<string>, z: seq<char>, i: nat, exclude: nat, start: nat, eol: nat) {
    && |z| == |t| && i <= |t| && eol <= |t|
    && exclude == Excluded(Conditions(t, defs, i))
    && Finished(i, exclude, start) <= i && (exclude > 0 ==> start < i)
    && (forall k | 0 <= k < Finished(i, exclude, start) :: z[k] == Processed(t, defs, k))
    && (forall k | Finished(i, exclude, start) <= k < i ::
         Processed(t, defs, k) == (if t[k] == '\n' then '\n' else ' '))
    && (forall k | 0 <= k < |t| :: (z[k] == '\n') == (t[k] == '\n'))
    && (forall k | i <= k < eol :: z[k] == ' ' && OnDirective(t, defs, k) && !LineStart(t, k))
    && (forall k | i <= k < |t| && k >= eol :: z[k] == t[k])
    && (0 < eol < |t| ==> t[eol] == '\n')
    && (i > 0 && OnDirective(t, defs, i - 1) ==> i < eol || i == |t| || t[i] == '\n')
  }

  lemma {:induction false} SameSkips(t: seq<char>, z: seq<char>, i: nat, j: nat)
    requires |z| == |t| && i <= j <= |t| && forall k | i <= k < |t| :: z[k] == t[k]
    ensures SkipSpaces(z, j) == SkipSpaces(t, j) && WordEnd(z, j) == WordEnd(t, j)
    decreases |t| - j
  {
    if j < |t| {
      SameSkips(t, z, i, j + 1);
    }
  }

  /** What a directive is depends only on the text from its first character on. */
  lemma SameDirective(t: seq<char>, z: seq<char>, defs: seq<string>, i: nat, w: string)
    requires |z| == |t| && i <= |t| && forall k | i <= k < |t| :: z[k] == t[k]
    ensures Begins(z, i, w) == Begins(t, i, w) && MacroAt(z, i) == MacroAt(t, i)
  {
    if i + |w| <= |t| {
      assert z[i..i + |w|] == t[i..i + |w|];
    }
    if i + 7 <= |t| {
      SameSkips(t, z, i, i + 7);
      var j := SkipSpaces(t, i + 7);
      SameSkips(t, z, i, j);
      assert z[j..WordEnd(t, j)] == t[j..WordEnd(t, j)];
    }
  }

  lemma NotPercent(t: seq<char>, defs: seq<string>, i: nat)
    requires i < |t| && t[i] != '%'
    ensures DirectiveAt(t, defs, i) == NoDirective
  {
    if i + 6 <= |t| { assert t[i..i + 6][0] == t[i]; }
    if i + 7 <= |t| { assert t[i..i + 7][0] == t[i]; }
  }

  /** Past a character that does not start a directive. */
  lemma PlainStep(t: seq<char>, defs: seq<string>, z: seq<char>, i: nat, exclude: nat, start: nat, eol: nat)
    requires Progress(t, defs, z, i, exclude, start, eol) && i < |t| && DirectiveAt(t, defs, i) == NoDirective
    ensures Progress(t, defs, z, i + 1, exclude, start, eol)
  {
    hide Processed, OnDirective, Conditions, DirectiveAt;
    PlainCharacter(t, defs, i, exclude, eol);
    assert exclude == 0 ==> z[i] == Processed(t, defs, i) by {
      assert i >= eol ==> z[i] == t[i];
      assert i < eol ==> z[i] == ' ' && OnDirective(t, defs, i);
    }
  }

  /** What becomes of a character that does not start a directive. */
  lemma PlainCharacter(t: seq<char>, defs: seq<string>, i: nat, exclude: nat, eol: nat)
    requires i < |t| && DirectiveAt(t, defs, i) == NoDirective && exclude == Excluded(Conditions(t, defs, i))
    requires i > 0 && OnDirective(t, defs, i - 1) ==> i < eol || t[i] == '\n'
    ensures Conditions(t, defs, i + 1) == Conditions(t, defs, i)
    ensures i >= eol ==> !OnDirective(t, defs, i)
    ensures exclude > 0 ==> Processed(t, defs, i) == if t[i] == '\n' then '\n' else ' '
    ensures exclude == 0 && i >= eol ==> Processed(t, defs, i) == t[i]
    ensures exclude == 0 && OnDirective(t, defs, i) ==> Processed(t, defs, i) == ' '
  {
    hide DirectiveAt;
    ExcludedIffFalse(Conditions(t, defs, i));
  }

  lemma PopExcluded(c: seq<bool>)
    ensures Excluded(c) > 0 ==> c != [] && Excluded(c[..|c| - 1]) == Excluded(c) - 1
    ensures Excluded(c) == 0 && c != [] ==> Excluded(c[..|c| - 1]) == 0
  {
  }

  lemma PushExcluded(c: seq<bool>, h: bool)
    ensures Excluded(c + [h]) == if Excluded(c) > 0 then Excluded(c) + 1 else if h then 0 else 1
  {
    assert (c + [h])[..|c|] == c;
  }

  /** The line of a directive at `i`, to its end, is directive. */
  lemma {:induction false} LineIsDirective(t: seq<char>, defs: seq<string>, i: nat, k: nat)
    requires i <= k < |t| && LineStart(t, i) && DirectiveAt(t, defs, i) != NoDirective
    requires forall j | i <= j <= k :: t[j] != '\n'
    ensures OnDirective(t, defs, k) && (k > i ==> !LineStart(t, k))
    decreases k
  {
    if k > i {
      LineIsDirective(t, defs, i, k - 1);
    }
  }

  /** One character after the directive line from `i` to `eol` was blanked and, if an exclusion
      ended there, the text from `start` on as well. */
  function Blanked(z: seq<char>, k: nat, i: nat, eol: nat, ended: bool, start: nat): char
    requires k < |z|
  {
    if i <= k < eol then ' ' else if ended && start <= k < i && z[k] != '\n' then ' ' else z[k]
  }

  /** Past a whole directive. */
  lemma DirectiveStep(t: seq<char>, defs: seq<string>, z: seq<char>, i: nat, exclude: nat, start: nat, eol: nat,
                      z': seq<char>, exclude': nat, start': nat, eol': nat)
    requires Progress(t, defs, z, i, exclude, start, eol) && i < |t| && LineStart(t, i)
    requires DirectiveAt(t, defs, i) != NoDirective
    requires exclude' == Excluded(Conditions(t, defs, i + 1))
    requires if exclude > 0 then start' == start else start' == i
    requires |z'| == |t| && i < eol' <= |t| && (eol' < |t| ==> t[eol'] == '\n')
    requires forall k | i <= k < eol' :: t[k] != '\n'
    requires forall k | 0 <= k < |t| :: z'[k] == Blanked(z, k, i, eol', exclude > 0 && exclude' == 0, start)
    ensures Progress(t, defs, z', i + 1, exclude', start', eol')
  {
    hide Conditions, Processed, OnDirective, DirectiveAt;
    NewLine(t, defs, i, eol');
    assert i >= eol;
    forall k | 0 <= k < Finished(i + 1, exclude', start') ensures z'[k] == Processed(t, defs, k) {
      if k < Finished(i, exclude, start) {
        assert z[k] == Processed(t, defs, k);
      }
    }
  }

  /** A directive line: all of it is directive, and its first character is blanked. */
  lemma NewLine(t: seq<char>, defs: seq<string>, i: nat, eol: nat)
    requires i < eol <= |t| && LineStart(t, i) && DirectiveAt(t, defs, i) != NoDirective
    requires forall k | i <= k < eol :: t[k] != '\n'
    ensures forall k | i <= k < eol :: OnDirective(t, defs, k) && (k > i ==> !LineStart(t, k))
    ensures Processed(t, defs, i) == ' '
  {
    hide DirectiveAt, Conditions;
    forall k | i <= k < eol ensures OnDirective(t, defs, k) && (k > i ==> !LineStart(t, k)) {
      LineIsDirective(t, defs, i, k);
    }
  }

  method PreprocessInput(z: array<char>, defs: seq<string>) returns (ok: bool)
    requires forall k | 0 <= k < z.Length :: z[k] != '\0'
    modifies z
    ensures ok <==> AllHold(Conditions(old(z[..]), defs, z.Length))
    ensures ok ==> forall k | 0 <= k < z.Length :: z[k] == Processed(old(z[..]), defs, k)
    ensures forall k | 0 <= k < z.Length :: z[k] == '\n' <==> old(z[k]) == '\n'
  {
    hide Processed, Conditions, OnDirective, Begins, MacroAt;
    ghost var t := z[..];
    var exclude, start := 0, 0;
    ghost var eol := 0;
    NothingProcessed(t, defs);
    for i := 0 to z.Length
      invariant Progress(t, defs, z[..], i, exclude, start, eol)
    {
      ghost var z0 := z[..];
      if z[i] != '%' || (i > 0 && z[i - 1] != '\n') {
        NoDirectiveHere(t, defs, z0, i, exclude, start, eol);
        PlainStep(t, defs, z0, i, exclude, start, eol);
        continue;
      }
      SuffixUntouched(t, defs, z0, i, exclude, start, eol);
      SameDirective(t, z0, defs, i, "%endif");
      SameDirective(t, z0, defs, i, "%ifdef");
      SameDirective(t, z0, defs, i, "%ifndef");
      ghost var exclude0, start0 := exclude, start;
      if Begins(z[..], i, "%endif") {
        EndStep(t, defs, i);
        if exclude > 0 {
          exclude := exclude - 1;
          if exclude == 0 { BlankRange(z, start, i); }
        }
      } else if Begins(z[..], i, "%ifdef") || Begins(z[..], i, "%ifndef") {
        if exclude > 0 {
          exclude := exclude + 1;
        } else {
          exclude := Condition(z, defs, i);
          if exclude > 0 { start := i; }
        }
        IfStep(t, defs, i);
      } else {
        PlainStep(t, defs, z0, i, exclude, start, eol);
        continue;
      }
      ghost var start' := if exclude0 > 0 then start0 else i;
      ghost var z1 := z[..];
      var end := BlankLine(z, i);
      DirectiveStep(t, defs, z0, i, exclude0, start0, eol, z[..], exclude, start', end);
      eol := end;
    }
    FinalConditions(t, defs);
    ok := exclude == 0;
  }

  /** Whether the text after an %ifdef or %ifndef at `i` is excluded. */
  method Condition(z: array<char>, defs: seq<string>, i: nat) returns (exclude: nat)
    requires Begins(z[..], i, "%ifdef") || Begins(z[..], i, "%ifndef")
    ensures exclude == if (MacroAt(z[..], i) in defs) == Begins(z[..], i, "%ifdef") then 0 else 1
  {
    ThirdCharacter(z[..], i);
    var j := SkipSpace(z, i + 7);
    var end := SkipWord(z, j);
    var found := IsDefined(defs, z[j..end]);
    assert z[j..end] == z[..][j..end] == MacroAt(z[..], i);
    exclude := if found then 0 else 1;
    if z[i + 3] == 'n' { exclude := 1 - exclude; }
  }

  lemma ThirdCharacter(t: seq<char>, i: nat)
    requires Begins(t, i, "%ifdef") || Begins(t, i, "%ifndef")
    ensures i + 7 <= |t|
    ensures Begins(t, i, "%ifdef") <==> t[i + 3] != 'n'
  {
    if Begins(t, i, "%ifdef") {
      assert t[i..i + 6][3] == t[i + 3];
    } else {
      assert t[i..i + 7][3] == t[i + 3];
    }
  }

  lemma SuffixUntouched(t: seq<char>, defs: seq<string>, z: seq<char>, i: nat, exclude: nat, start: nat, eol: nat)
    requires Progress(t, defs, z, i, exclude, start, eol) && i < |t| && z[i] == '%' && (i > 0 ==> z[i - 1] == '\n')
    ensures i >= eol && LineStart(t, i) && forall k | i <= k < |t| :: z[k] == t[k]
    ensures exclude == Excluded(Conditions(t, defs, i)) && (exclude > 0 ==> start < i)
  {
  }

  lemma EndStep(t: seq<char>, defs: seq<string>, i: nat)
    requires LineStart(t, i) && Begins(t, i, "%endif")
    ensures DirectiveAt(t, defs, i) == EndIf
    ensures var e := Excluded(Conditions(t, defs, i));
            Excluded(Conditions(t, defs, i + 1)) == if e > 0 then e - 1 else 0
  {
    PopExcluded(Conditions(t, defs, i));
  }

  lemma IfStep(t: seq<char>, defs: seq<string>, i: nat)
    requires LineStart(t, i) && !Begins(t, i, "%endif") && (Begins(t, i, "%ifdef") || Begins(t, i, "%ifndef"))
    ensures DirectiveAt(t, defs, i) != NoDirective
    ensures var e := Excluded(Conditions(t, defs, i));
      Excluded(Conditions(t, defs, i + 1)) ==
        if e > 0 then e + 1 else if (MacroAt(t, i) in defs) == Begins(t, i, "%ifdef") then 0 else 1
  {
    var holds := (MacroAt(t, i) in defs) == Begins(t, i, "%ifdef");
    assert DirectiveAt(t, defs, i) == If(holds);
    PushExcluded(Conditions(t, defs, i), holds);
  }

  lemma FinalConditions(t: seq<char>, defs: seq<string>)
    ensures Excluded(Conditions(t, defs, |t|)) == 0 <==> AllHold(Conditions(t, defs, |t|))
  {
    ExcludedIffFalse(Conditions(t, defs, |t|));
  }

  lemma NothingProcessed(t: seq<char>, defs: seq<string>)
    ensures Progress(t, defs, t, 0, 0, 0, 0)
  {
  }

  lemma NoDirectiveHere(t: seq<char>, defs: seq<string>, z: seq<char>, i: nat, exclude: nat, start: nat, eol: nat)
    requires Progress(t, defs, z, i, exclude, start, eol) && i < |t|
    requires z[i] != '%' || (i > 0 && z[i - 1] != '\n')
    ensures DirectiveAt(t, defs, i) == NoDirective
  {
    if LineStart(t, i) {
      NotPercent(t, defs, i);
    }
  }
}
