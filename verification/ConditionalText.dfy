/** Conditional text by its structure: lines and conditions that may be nested.  What the one pass of
    the preprocessor leaves of such a text is what its structure says. */
module ConditionalText {
  import opened Preprocess

  /** A condition asks for `name`, to be defined or not to be; `gap` is what separates it from the
      directive, `rest` and `tail` are what follows it and the %endif on their lines. */
  datatype Block =
    | Line(text: string)
    | Cond(defined: bool, gap: string, name: string, rest: string, body: seq<Block>, tail: string)

  predicate Blank(c: char) {
    c == ' ' || c == '\t' || c == '\n' || c == '\r' || c == '\U{00000B}' || c == '\U{00000C}'
  }

  predicate OneLine(s: string) {
    forall k | 0 <= k < |s| :: s[k] != '\n'
  }

  predicate AllBlank(s: string) {
    forall k | 0 <= k < |s| :: Blank(s[k])
  }

  predicate OneWord(s: string) {
    s != [] && forall k | 0 <= k < |s| :: !Blank(s[k])
  }

  /** Nothing, or something set off by a blank. */
  predicate SetOff(s: string) {
    s == [] || Blank(s[0])
  }

  /** The line is `word`, possibly followed by something. */
  predicate Starts(word: string, line: string) {
    word <= line && SetOff(line[|word|..])
  }

  predicate Wf(b: Block) {
    match b
    case Line(text) =>
      OneLine(text) && !Starts("%ifdef", text) && !Starts("%ifndef", text) && !Starts("%endif", text)
    case Cond(_, gap, name, rest, body, tail) =>
      && gap != [] && AllBlank(gap) && OneLine(gap) && OneWord(name)
      && OneLine(rest) && SetOff(rest) && OneLine(tail) && SetOff(tail)
      && WfAll(body)
  }

  predicate WfAll(bs: seq<Block>) {
    forall k | 0 <= k < |bs| :: Wf(bs[k])
  }

  // ----- The text and what is to become of it -----

  function Opening(b: Block): string
    requires b.Cond?
  {
    (if b.defined then "%ifdef" else "%ifndef") + b.gap + b.name + b.rest
  }

  function Closing(b: Block): string
    requires b.Cond?
  {
    "%endif" + b.tail
  }

  function TextOf(b: Block): string {
    match b
    case Line(text) => text + "\n"
    case Cond(_, _, _, _, body, _) => Opening(b) + "\n" + Text(body) + Closing(b) + "\n"
  }

  function Text(bs: seq<Block>): string {
    if bs == [] then [] else TextOf(bs[0]) + Text(bs[1..])
  }

  /** A line without its characters. */
  function Cleared(s: string): string {
    seq(|s|, _ => ' ') + "\n"
  }

  function OutputOf(b: Block, defs: seq<string>, on: bool): string {
    match b
    case Line(text) => if on then text + "\n" else Cleared(text)
    case Cond(defined, _, name, _, body, _) =>
      Cleared(Opening(b)) + Output(body, defs, on && (name in defs) == defined) + Cleared(Closing(b))
  }

  function Output(bs: seq<Block>, defs: seq<string>, on: bool): string {
    if bs == [] then [] else OutputOf(bs[0], defs, on) + Output(bs[1..], defs, on)
  }

  // ----- The macro of a directive -----

  lemma SameBlanks(c: char)
    ensures IsSpace(c) <==> Blank(c)
  {
  }

  lemma {:induction false} SkipsBlanks(t: string, j: nat, e: nat)
    requires j <= e <= |t| && AllBlank(t[j..e]) && (e < |t| ==> !Blank(t[e]))
    ensures SkipSpaces(t, j) == e
    decreases e - j
  {
    if j < e {
      assert t[j..e][0] == t[j] && t[j + 1..e] == t[j..e][1..];
      SkipsBlanks(t, j + 1, e);
    }
  }

  lemma {:induction false} SkipsWord(t: string, j: nat, e: nat)
    requires j <= e <= |t| && (e < |t| ==> Blank(t[e])) && forall k | j <= k < e :: !Blank(t[k])
    ensures WordEnd(t, j) == e
    decreases e - j
  {
    if j < e {
      SkipsWord(t, j + 1, e);
    }
  }

  /** The macro is the whole first word behind the directive, however much blank space is in front
      of it. */
  lemma MacroNamed(t: string, i: nat, gap: string, name: string, rest: string)
    requires i + 7 <= |t| && t[i + 7..] == gap + name + rest
    requires AllBlank(gap) && OneWord(name) && SetOff(rest)
    ensures MacroAt(t, i) == name
  {
    var u, j, e := t[i + 7..], i + 7 + |gap|, i + 7 + |gap| + |name|;
    assert forall k | 0 <= k < |u| :: u[k] == t[i + 7 + k];
    assert t[i + 7..j] == u[..|gap|] == gap && t[j] == u[|gap|] == name[0];
    SkipsBlanks(t, i + 7, j);
    forall k | j <= k < e ensures !Blank(t[k]) {
      assert t[k] == u[k - i - 7] == name[k - j];
    }
    assert e < |t| ==> t[e] == u[|gap| + |name|] == rest[0];
    SkipsWord(t, j, e);
    assert t[j..e] == u[|gap|..|gap| + |name|] == name;
  }

  /** The text from `i` on is `word`, something blank, and more. */
  lemma WordAt(t: string, i: nat, word: string, more: string)
    requires i <= |t| && t[i..] == word + more && more != []
    ensures i + |word| < |t| && t[i..i + |word|] == word && t[i + |word|] == more[0] && t[i + |word|..] == more
    ensures Begins(t, i, word) <==> Blank(more[0])
  {
    var u := t[i..];
    assert t[i..i + |word|] == u[..|word|] && t[i + |word|] == u[|word|] && t[i + |word|..] == u[|word|..];
  }

  lemma OtherWord(t: string, i: nat, word: string, other: string, k: nat)
    requires i + |word| <= |t| && t[i..i + |word|] == word && k < |word| && k < |other| && word[k] != other[k]
    ensures !Begins(t, i, other)
  {
    if i + |other| <= |t| {
      assert t[i..i + |other|][k] == t[i..i + |word|][k];
    }
  }

  /** An %ifdef at the start of a line, followed by a blank and the name, holds exactly when the name
      is in the macro list; an %ifndef when it is not. */
  lemma ConditionMeans(t: string, defs: seq<string>, i: nat, defined: bool, gap: string, name: string, rest: string)
    requires LineStart(t, i) && i <= |t|
    requires t[i..] == (if defined then "%ifdef" else "%ifndef") + gap + name + rest
    requires gap != [] && AllBlank(gap) && OneWord(name) && SetOff(rest)
    ensures DirectiveAt(t, defs, i) == If((name in defs) == defined)
  {
    hide Begins, MacroAt, OneWord, SetOff;
    var more := gap + name + rest;
    if defined {
      assert t[i..] == "%ifdef" + more;
      WordAt(t, i, "%ifdef", more);
      OtherWord(t, i, "%ifdef", "%endif", 1);
      assert t[i + 7..] == t[i + 6..][1..] == gap[1..] + name + rest;
      MacroNamed(t, i, gap[1..], name, rest);
    } else {
      assert t[i..] == "%ifndef" + more;
      WordAt(t, i, "%ifndef", more);
      OtherWord(t, i, "%ifndef", "%endif", 1);
      OtherWord(t, i, "%ifndef", "%ifdef", 3);
      MacroNamed(t, i, gap, name, rest);
    }
  }

  lemma EndMeans(t: string, defs: seq<string>, i: nat, tail: string)
    requires LineStart(t, i) && i <= |t| && t[i..] == "%endif" + tail && tail != [] && Blank(tail[0])
    ensures DirectiveAt(t, defs, i) == EndIf
  {
    WordAt(t, i, "%endif", tail);
  }

  lemma LineMeans(t: string, defs: seq<string>, i: nat, line: string, rest: string)
    requires i <= |t| && t[i..] == line + "\n" + rest && Wf(Line(line))
    ensures DirectiveAt(t, defs, i) == NoDirective
  {
    NotBegun(t, i, line, rest, "%endif");
    NotBegun(t, i, line, rest, "%ifdef");
    NotBegun(t, i, line, rest, "%ifndef");
  }

  lemma NotBegun(t: string, i: nat, line: string, rest: string, word: string)
    requires i <= |t| && t[i..] == line + "\n" + rest && OneLine(line) && OneLine(word) && !Starts(word, line)
    ensures !Begins(t, i, word)
  {
    var u := t[i..];
    assert forall k | 0 <= k < |u| :: u[k] == t[i + k];
    if i + |word| <= |t| {
      assert t[i..i + |word|] == u[..|word|];
      if |word| > |line| {
        assert u[..|word|][|line|] == '\n' != word[|line|];
      } else {
        assert line[..|word|] == u[..|word|];
        assert CharAt(t, i + |word|) == u[|word|];
        assert |line| > |word| ==> u[|word|] == line[|word|..][0];
      }
    }
  }

  // ----- One line of the pass -----

  /** A line and its end: the conditions change at its first character, if at all. */
  lemma {:induction false} AlongLine(t: string, defs: seq<string>, i: nat, n: nat)
    requires LineStart(t, i) && i + n < |t| && forall k | i <= k < i + n :: t[k] != '\n'
    ensures n > 0 ==> Conditions(t, defs, i + n) == Conditions(t, defs, i + 1)
    ensures n > 0 ==> (OnDirective(t, defs, i + n - 1) <==> DirectiveAt(t, defs, i) != NoDirective)
    decreases n
  {
    if n > 1 {
      AlongLine(t, defs, i, n - 1);
    }
  }

  ghost predicate Leaves(t: string, defs: seq<string>, i: nat, out: string) {
    i + |out| <= |t| && forall k: nat | k < |out| :: Processed(t, defs, i + k) == out[k]
  }

  lemma LineCharacter(t: string, defs: seq<string>, i: nat, n: nat, k: nat)
    requires LineStart(t, i) && i + n < |t| && k < n && forall k | i <= k < i + n :: t[k] != '\n'
    ensures Processed(t, defs, i + k) ==
      if DirectiveAt(t, defs, i) == NoDirective && AllHold(Conditions(t, defs, i)) then t[i + k] else ' '
  {
    hide DirectiveAt, OnDirective, AllHold;
    AlongLine(t, defs, i, k + 1);
    AlongLine(t, defs, i, k);
    assert DirectiveAt(t, defs, i) == NoDirective ==> Conditions(t, defs, i + 1) == Conditions(t, defs, i);
  }

  lemma WholeLine(t: string, defs: seq<string>, i: nat, line: string)
    requires LineStart(t, i) && i + |line| < |t| && t[i..i + |line|] == line && t[i + |line|] == '\n' && OneLine(line)
    ensures Conditions(t, defs, i + |line| + 1) == Conditions(t, defs, i + 1)
    ensures Leaves(t, defs, i, if DirectiveAt(t, defs, i) == NoDirective && AllHold(Conditions(t, defs, i))
                               then line + "\n" else Cleared(line))
  {
    hide DirectiveAt, OnDirective, AllHold, Conditions, LineStart;
    var n := |line|;
    assert forall k | i <= k < i + n :: t[k] == line[k - i];
    LineEnd(t, defs, i, n);
    forall k: nat | k < n
      ensures Processed(t, defs, i + k) ==
        if DirectiveAt(t, defs, i) == NoDirective && AllHold(Conditions(t, defs, i)) then line[k] else ' '
    {
      LineCharacter(t, defs, i, n, k);
    }
  }

  lemma LineEnd(t: string, defs: seq<string>, i: nat, n: nat)
    requires LineStart(t, i) && i + n < |t| && t[i + n] == '\n' && forall k | i <= k < i + n :: t[k] != '\n'
    ensures Conditions(t, defs, i + n + 1) == Conditions(t, defs, i + 1)
  {
    hide Conditions, DirectiveAt, OnDirective;
    AlongLine(t, defs, i, n);
    if n > 0 {
      NoDirectiveInside(t, defs, i + n);
    }
  }

  lemma NoDirectiveInside(t: string, defs: seq<string>, i: nat)
    requires !LineStart(t, i)
    ensures Conditions(t, defs, i + 1) == Conditions(t, defs, i)
  {
  }

  lemma LeavesBoth(t: string, defs: seq<string>, i: nat, a: string, b: string)
    requires Leaves(t, defs, i, a) && Leaves(t, defs, i + |a|, b)
    ensures Leaves(t, defs, i, a + b)
  {
    hide Processed;
    forall k: nat | k < |a + b| ensures Processed(t, defs, i + k) == (a + b)[k] {
      if k >= |a| {
        assert Processed(t, defs, i + |a| + (k - |a|)) == b[k - |a|];
      }
    }
  }

  // ----- Blocks -----

  /** What is behind a block of lines: the conditions are as they were, and a new line begins. */
  ghost predicate Passed(t: string, defs: seq<string>, i: nat, j: nat, out: string) {
    && j == i + |out| <= |t| && LineStart(t, j) && Conditions(t, defs, j) == Conditions(t, defs, i)
    && Leaves(t, defs, i, out)
  }

  lemma {:induction false} BlocksPassed(t: string, defs: seq<string>, i: nat, bs: seq<Block>, rest: string)
    requires LineStart(t, i) && i <= |t| && t[i..] == Text(bs) + rest && WfAll(bs)
    ensures Passed(t, defs, i, i + |Text(bs)|, Output(bs, defs, AllHold(Conditions(t, defs, i))))
    decreases bs
  {
    hide Conditions, Processed, Wf, LineStart;
    if bs != [] {
      var first := TextOf(bs[0]);
      var on := AllHold(Conditions(t, defs, i));
      assert t[i..] == first + (Text(bs[1..]) + rest);
      BlockPassed(t, defs, i, bs[0], Text(bs[1..]) + rest);
      assert t[i + |first|..] == t[i..][|first|..] == Text(bs[1..]) + rest;
      BlocksPassed(t, defs, i + |first|, bs[1..], rest);
      LeavesBoth(t, defs, i, OutputOf(bs[0], defs, on), Output(bs[1..], defs, on));
    }
  }

  lemma {:induction false} BlockPassed(t: string, defs: seq<string>, i: nat, b: Block, rest: string)
    requires LineStart(t, i) && i <= |t| && t[i..] == TextOf(b) + rest && Wf(b)
    ensures Passed(t, defs, i, i + |TextOf(b)|, OutputOf(b, defs, AllHold(Conditions(t, defs, i))))
    decreases b
  {
    hide Processed, Conditions, DirectiveAt, Cleared, Leaves, LineStart, AllHold;
    match b
    case Line(text) =>
      LineAt(t, i, text, rest);
      LineMeans(t, defs, i, text, rest);
      WholeLine(t, defs, i, text);
      PlainLine(t, defs, i);
      ClearedLength(text);
    case Cond(_, _, _, _, _, _) =>
      CondPassed(t, defs, i, b, rest);
  }

  lemma PlainLine(t: string, defs: seq<string>, i: nat)
    requires DirectiveAt(t, defs, i) == NoDirective
    ensures Conditions(t, defs, i + 1) == Conditions(t, defs, i)
  {
  }

  lemma LineAt(t: string, i: nat, line: string, rest: string)
    requires i <= |t| && t[i..] == line + "\n" + rest
    ensures i + |line| < |t| && t[i..i + |line|] == line && t[i + |line|] == '\n'
    ensures t[i + |line| + 1..] == rest && LineStart(t, i + |line| + 1)
  {
    var u := t[i..];
    assert u[..|line|] == line && u[|line|] == '\n' && u[|line| + 1..] == rest;
    assert t[i..i + |line|] == u[..|line|] && t[i + |line|] == u[|line|];
  }

  lemma {:induction false} CondPassed(t: string, defs: seq<string>, i: nat, b: Block, rest: string)
    requires b.Cond? && LineStart(t, i) && i <= |t| && t[i..] == TextOf(b) + rest && Wf(b)
    ensures Passed(t, defs, i, i + |TextOf(b)|, OutputOf(b, defs, AllHold(Conditions(t, defs, i))))
    decreases b, 0
  {
    hide Processed, LineStart, DirectiveAt, Conditions, Opening, Closing, Text, Output, OneLine, Leaves, Cleared;
    var c, holds := Conditions(t, defs, i), (b.name in defs) == b.defined;
    var opening, closing, inner := Opening(b), Closing(b), Text(b.body);
    var behind := closing + "\n" + rest;
    assert t[i..] == opening + "\n" + (inner + behind);
    LineAt(t, i, opening, inner + behind);
    OpeningLine(t, defs, i, b, inner + behind);
    WholeLine(t, defs, i, opening);
    var j := i + |opening| + 1;
    BlocksPassed(t, defs, j, b.body, behind);
    var k := j + |inner|;
    assert t[k..] == t[j..][|inner|..] == behind;
    LineAt(t, k, closing, rest);
    ClosingLine(t, defs, k, b, rest);
    WholeLine(t, defs, k, closing);
    assert (c + [holds])[..|c|] == c;
    OneMoreHolds(c, holds);
    ClearedLength(opening);
    ClearedLength(closing);
    LeavesBoth(t, defs, i, Cleared(opening), Output(b.body, defs, AllHold(c) && holds));
    LeavesBoth(t, defs, i, Cleared(opening) + Output(b.body, defs, AllHold(c) && holds), Cleared(closing));
  }

  lemma OneMoreHolds(c: seq<bool>, h: bool)
    ensures AllHold(c + [h]) <==> AllHold(c) && h
  {
    assert (c + [h])[|c|] == h;
    assert forall k | 0 <= k < |c| :: (c + [h])[k] == c[k];
  }

  lemma ClearedLength(s: string)
    ensures |Cleared(s)| == |s| + 1
  {
  }

  lemma OpeningLine(t: string, defs: seq<string>, i: nat, b: Block, rest: string)
    requires b.Cond? && Wf(b) && LineStart(t, i) && i <= |t| && t[i..] == Opening(b) + "\n" + rest
    ensures DirectiveAt(t, defs, i) == If((b.name in defs) == b.defined) && OneLine(Opening(b))
    ensures Conditions(t, defs, i + 1) == Conditions(t, defs, i) + [(b.name in defs) == b.defined]
  {
    hide DirectiveAt, OneWord, AllBlank;
    var w := if b.defined then "%ifdef" else "%ifndef";
    assert Opening(b) + "\n" + rest == w + b.gap + b.name + (b.rest + "\n" + rest);
    ConditionMeans(t, defs, i, b.defined, b.gap, b.name, b.rest + "\n" + rest);
    WordIsOneLine(b.name);
  }

  lemma WordIsOneLine(s: string)
    requires OneWord(s)
    ensures OneLine(s)
  {
    assert forall k | 0 <= k < |s| :: !Blank(s[k]);
  }

  lemma ClosingLine(t: string, defs: seq<string>, i: nat, b: Block, rest: string)
    requires b.Cond? && Wf(b) && LineStart(t, i) && i <= |t| && t[i..] == Closing(b) + "\n" + rest
    ensures DirectiveAt(t, defs, i) == EndIf && OneLine(Closing(b))
    ensures var c := Conditions(t, defs, i); c != [] ==> Conditions(t, defs, i + 1) == c[..|c| - 1]
  {
    assert Closing(b) + "\n" + rest == "%endif" + (b.tail + "\n" + rest);
    EndMeans(t, defs, i, b.tail + "\n" + rest);
  }

  /** The pass over a text of nested conditions leaves no condition open, and every line of it is
      kept if and only if all the conditions around it hold. */
  lemma TextProcessed(bs: seq<Block>, defs: seq<string>)
    requires WfAll(bs)
    ensures var t, out := Text(bs), Output(bs, defs, true);
      && |out| == |t| && AllHold(Conditions(t, defs, |t|))
      && forall k: nat | k < |t| :: Processed(t, defs, k) == out[k]
  {
    hide Processed, Text, Output;
    var t, out := Text(bs), Output(bs, defs, true);
    assert t[0..] == t + [];
    BlocksPassed(t, defs, 0, bs, []);
    forall k: nat | k < |t| ensures Processed(t, defs, k) == out[k] {
      assert Processed(t, defs, 0 + k) == out[k];
    }
  }

  function ExampleBlock(): Block {
    Cond(true, " ", "FOO", "", [Line("x")], "")
  }

  /** The whole name counts: with FOO defined the line in between stays, otherwise it goes. */
  lemma Example()
    ensures var t := "%ifdef FOO\nx\n%endif\n";
      && (forall k: nat | k < |t| :: Processed(t, ["FOO"], k) == "          \nx\n      \n"[k])
      && (forall k: nat | k < |t| :: Processed(t, ["F"], k) == "          \n \n      \n"[k])
  {
    hide Processed, Text, Output, Conditions;
    ExampleText();
    ExampleOutput(["FOO"], true);
    ExampleOutput(["F"], false);
    TextProcessed([ExampleBlock()], ["FOO"]);
    TextProcessed([ExampleBlock()], ["F"]);
  }

  lemma ExampleText()
    ensures Text([ExampleBlock()]) == "%ifdef FOO\nx\n%endif\n" && WfAll([ExampleBlock()])
  {
    var b := ExampleBlock();
    assert Opening(b) == "%ifdef FOO" && Closing(b) == "%endif";
    assert Text(b.body) == TextOf(b.body[0]) + Text(b.body[1..]) == "x\n";
    assert Text([b]) == TextOf([b][0]) + Text([b][1..]);
  }

  lemma ExampleOutput(defs: seq<string>, on: bool)
    requires on == ("FOO" in defs)
    ensures Output([ExampleBlock()], defs, true) ==
            "          \n" + (if on then "x\n" else " \n") + "      \n"
  {
    var b := ExampleBlock();
    assert Opening(b) == "%ifdef FOO" && Closing(b) == "%endif";
    assert Cleared(Opening(b)) == "          \n" && Cleared(Closing(b)) == "      \n" && Cleared("x") == " \n";
    assert Output(b.body, defs, on) == OutputOf(b.body[0], defs, on) + Output(b.body[1..], defs, on);
    assert Output([b], defs, true) == OutputOf([b][0], defs, true) + Output([b][1..], defs, true);
  }
}
