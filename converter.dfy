/** The ChatML converter of the post-processing stage: a rated
    implementation passes a quality gate on its ratings, loses the hint of
    its problem text and the docstring of its code, and becomes a record
    holding a user message (problem and signature) and an assistant message
    (the function body). `ast.parse` is a parameter: it reports the
    `FunctionDef` nodes that `ast.walk` visits, in order. */
module Converter {
  import opened Text
  import opened Json

  // ---------------------------------------------------------------- hints

  /** A line whose stripped text begins with `Hint:`. */
  predicate HintLine(line: string) {
    StartsWith(Strip(line), "Hint:")
  }

  /** The position of the first hint line, if any. */
  function HintAt(lines: seq<string>): (r: Option<nat>)
    ensures r.Some? ==> r.value < |lines| && HintLine(lines[r.value])
  {
    if lines == [] then None
    else if HintLine(lines[0]) then Some(0)
    else match HintAt(lines[1..])
      case None => None
      case Some(i) => Some(i + 1)
  }

  /** `HintAt` finds the first hint line, and nothing when there is none. */
  lemma {:induction false} HintAtSpec(lines: seq<string>)
    ensures HintAt(lines).Some? ==>
      forall i :: 0 <= i < HintAt(lines).value ==> !HintLine(lines[i])
    ensures HintAt(lines).None? <==> forall i :: 0 <= i < |lines| ==> !HintLine(lines[i])
  {
    if lines != [] && !HintLine(lines[0]) {
      HintAtSpec(lines[1..]);
      assert forall i :: 1 <= i < |lines| ==> lines[i] == lines[1..][i - 1];
    }
  }

  lemma {:induction false} HintAtSnoc(lines: seq<string>, line: string)
    ensures HintAt(lines + [line]) ==
      if HintAt(lines).Some? then HintAt(lines)
      else if HintLine(line) then Some(|lines|)
      else None
  {
    if lines == [] {
      assert [] + [line] == [line];
    } else {
      assert (lines + [line])[1..] == lines[1..] + [line];
      HintAtSnoc(lines[1..], line);
    }
  }

  /** The lines in front of the first hint line. */
  function BeforeHint(lines: seq<string>): seq<string> {
    match HintAt(lines)
    case None => lines
    case Some(i) => lines[..i]
  }

  /** One more line extends the kept prefix unless a hint line came before
      it or it is one. */
  lemma BeforeHintSnoc(lines: seq<string>, line: string)
    ensures BeforeHint(lines + [line]) ==
      if HintAt(lines).Some? then BeforeHint(lines)
      else if HintLine(line) then lines
      else lines + [line]
  {
    HintAtSnoc(lines, line);
    if HintAt(lines).Some? {
      var i := HintAt(lines).value;
      assert (lines + [line])[..i] == lines[..i];
    } else if HintLine(line) {
      assert (lines + [line])[..|lines|] == lines;
    }
  }

  /** `BeforeHint` is the longest prefix without a hint line: it stops at a
      hint line or at the end. */
  lemma BeforeHintSpec(lines: seq<string>)
    ensures BeforeHint(lines) <= lines
    ensures forall i :: 0 <= i < |BeforeHint(lines)| ==> !HintLine(BeforeHint(lines)[i])
    ensures |BeforeHint(lines)| < |lines| ==> HintLine(lines[|BeforeHint(lines)|])
  {
    HintAtSpec(lines);
  }

  /** Reading one more line of the problem text, in terms of the prefix
      read so far. */
  lemma PrefixStep(lines: seq<string>, i: nat)
    requires i < |lines|
    ensures HintAt(lines[..i + 1]).Some? <==> HintAt(lines[..i]).Some? || HintLine(lines[i])
    ensures BeforeHint(lines[..i + 1]) ==
      if HintAt(lines[..i]).Some? then BeforeHint(lines[..i])
      else if HintLine(lines[i]) then lines[..i]
      else lines[..i] + [lines[i]]
  {
    assert lines[..i + 1] == lines[..i] + [lines[i]];
    HintAtSnoc(lines[..i], lines[i]);
    BeforeHintSnoc(lines[..i], lines[i]);
  }

  /** What `_remove_hint_static` and `_remove_hint` return: the lines before
      the first hint line, joined again and stripped. */
  function HintRemoved(problemText: string): string {
    Strip(Unlines(BeforeHint(Lines(problemText))))
  }

  /** `_remove_hint_static` / `_remove_hint`: the `skip_rest` loop. */
  method RemoveHint(problemText: string) returns (r: string)
    ensures r == HintRemoved(problemText)
  {
    var lines := Lines(problemText);
    var filtered: seq<string> := [];
    var skipRest := false;
    for i := 0 to |lines|
      invariant skipRest <==> HintAt(lines[..i]).Some?
      invariant filtered == BeforeHint(lines[..i])
    {
      PrefixStep(lines, i);
      if StartsWith(Strip(lines[i]), "Hint:") {
        skipRest := true;
        continue;
      }
      if !skipRest {
        filtered := filtered + [lines[i]];
      }
    }
    assert lines[..|lines|] == lines;
    r := Strip(Unlines(filtered));
  }

  /** A line of a cleaned text: one line, and not a hint. */
  predicate Clean(line: string) {
    '\n' !in line && !HintLine(line)
  }

  lemma CleanStrips(line: string)
    requires Clean(line)
    ensures Clean(LStrip(line)) && Clean(RStrip(line))
  {
    StripLStrip(line);
    StripRStrip(line);
    assert forall c :: c in LStrip(line) ==> c in line;
    assert forall c :: c in RStrip(line) ==> c in line;
  }

  lemma {:induction false} LStripLinesClean(ls: seq<string>)
    requires |ls| >= 1
    requires forall i :: 0 <= i < |ls| ==> Clean(ls[i])
    ensures forall i :: 0 <= i < |LStripLines(ls)| ==> Clean(LStripLines(ls)[i])
    decreases |ls|
  {
    if |ls| == 1 || !IsBlank(ls[0]) {
      CleanStrips(ls[0]);
    } else {
      assert forall i :: 0 <= i < |ls| - 1 ==> ls[1..][i] == ls[i + 1];
      LStripLinesClean(ls[1..]);
    }
  }

  lemma {:induction false} RStripLinesClean(ls: seq<string>)
    requires |ls| >= 1
    requires forall i :: 0 <= i < |ls| ==> Clean(ls[i])
    ensures forall i :: 0 <= i < |RStripLines(ls)| ==> Clean(RStripLines(ls)[i])
    decreases |ls|
  {
    if |ls| == 1 || !IsBlank(ls[|ls| - 1]) {
      CleanStrips(ls[|ls| - 1]);
    } else {
      RStripLinesClean(ls[..|ls| - 1]);
    }
  }

  /** Joining clean lines and stripping the result gives a text whose lines
      are all clean. */
  lemma StrippedClean(ls: seq<string>)
    requires forall i :: 0 <= i < |ls| ==> Clean(ls[i])
    ensures forall i :: 0 <= i < |Lines(Strip(Unlines(ls)))| ==> Clean(Lines(Strip(Unlines(ls)))[i])
  {
    if ls == [] {
      assert Strip(Unlines(ls)) == [];
      assert Lines([]) == [[]];
    } else {
      var l := LStripLines(ls);
      LStripUnlines(ls);
      LStripLinesClean(ls);
      var r := RStripLines(l);
      RStripUnlines(l);
      RStripLinesClean(l);
      assert Strip(Unlines(ls)) == Unlines(r);
      SplitJoin(r, '\n');
    }
  }

  /** No line of the result of `_remove_hint` starts with `Hint:` once stripped. */
  lemma NoHintLeft(problemText: string)
    ensures forall i :: 0 <= i < |Lines(HintRemoved(problemText))| ==>
      !HintLine(Lines(HintRemoved(problemText))[i])
  {
    var lines := Lines(problemText);
    var kept := BeforeHint(lines);
    BeforeHintSpec(lines);
    assert forall i :: 0 <= i < |kept| ==> kept[i] == lines[i];
    StrippedClean(kept);
  }

  /** A text without hint lines only gets stripped. */
  lemma HintFreeStripped(problemText: string)
    requires forall i :: 0 <= i < |Lines(problemText)| ==> !HintLine(Lines(problemText)[i])
    ensures HintRemoved(problemText) == Strip(problemText)
  {
    HintAtSpec(Lines(problemText));
    JoinSplit(problemText, '\n');
  }

  /** Removing the hint twice is removing it once. */
  lemma HintRemovedIdempotent(problemText: string)
    ensures HintRemoved(HintRemoved(problemText)) == HintRemoved(problemText)
  {
    var r := HintRemoved(problemText);
    NoHintLeft(problemText);
    HintFreeStripped(r);
    StripProperties(Unlines(BeforeHint(Lines(problemText))));
  }

  // ------------------------------------------------------------ the parser

  /** What the parser reports about one `ast.FunctionDef` node: its name,
      the index of its `def` line (`lineno - 1`), and the `end_lineno` of
      its docstring when its first statement is a string constant. */
  datatype FuncDef = FuncDef(name: string, defLine: nat, docEnd: Option<nat>)

  /** `ast.parse` followed by the `FunctionDef` nodes `ast.walk` yields, in
      that order; `None` when parsing raises. */
  type PyParser = string -> Option<seq<FuncDef>>

  // ------------------------------------------------------------- signature

  /** A line that can start the signature of the function named `name`. */
  predicate DefLine(line: string, name: string) {
    StartsWith(Strip(line), "def ") && Contains(line, name)
  }

  /** A line that ends a signature. */
  predicate Closes(line: string) {
    EndsWith(RStrip(line), ":")
  }

  /** The first line at or after `i` that can start `name`'s signature. */
  function DefLineFrom(lines: seq<string>, name: string, i: nat): (r: Option<nat>)
    requires i <= |lines|
    ensures r.Some? ==> i <= r.value < |lines| && DefLine(lines[r.value], name)
    decreases |lines| - i
  {
    if i == |lines| then None
    else if DefLine(lines[i], name) then Some(i)
    else DefLineFrom(lines, name, i + 1)
  }

  /** `DefLineFrom` finds the first such line, and nothing when there is none. */
  lemma {:induction false} DefLineFromSpec(lines: seq<string>, name: string, i: nat)
    requires i <= |lines|
    ensures DefLineFrom(lines, name, i).Some? ==>
      forall m :: i <= m < DefLineFrom(lines, name, i).value ==> !DefLine(lines[m], name)
    ensures DefLineFrom(lines, name, i).None? <==>
      forall m :: i <= m < |lines| ==> !DefLine(lines[m], name)
    decreases |lines| - i
  {
    if i < |lines| {
      if DefLine(lines[i], name) {
        assert DefLineFrom(lines, name, i) == Some(i);
      } else {
        DefLineFromSpec(lines, name, i + 1);
        assert DefLineFrom(lines, name, i) == DefLineFrom(lines, name, i + 1);
      }
    }
  }

  /** One past the last line of a signature whose lines so far end at line
      `j - 1`: the signature grows until a line closes it or the code ends. */
  function SigEnd(lines: seq<string>, j: nat): (e: nat)
    requires 0 < j <= |lines|
    ensures j <= e <= |lines|
    decreases |lines| - j
  {
    if j == |lines| || Closes(lines[j - 1]) then j else SigEnd(lines, j + 1)
  }

  /** A signature ends at its first closing line, or with the code. */
  lemma {:induction false} SigEndSpec(lines: seq<string>, j: nat)
    requires 0 < j <= |lines|
    ensures SigEnd(lines, j) == |lines| || Closes(lines[SigEnd(lines, j) - 1])
    ensures forall m :: j - 1 <= m < SigEnd(lines, j) - 1 ==> !Closes(lines[m])
    decreases |lines| - j
  {
    if j < |lines| && !Closes(lines[j - 1]) {
      SigEndSpec(lines, j + 1);
    }
  }

  /** The signature of the first function, in walk order, with a `def`
      line in the code. */
  function SignatureIn(lines: seq<string>, defs: seq<FuncDef>): Option<string>
    decreases |defs|
  {
    if defs == [] then None
    else match DefLineFrom(lines, defs[0].name, 0)
      case Some(i) => Some(Strip(Unlines(lines[i..SigEnd(lines, i + 1)])))
      case None => SignatureIn(lines, defs[1..])
  }

  /** What `_extract_signature_static` and `_extract_function_signature`
      return for a record's `code`: `None` when it is not a string or does
      not parse, since both catch every exception. */
  function Signature(code: Value, parser: PyParser): Option<string> {
    if !code.Str? then None
    else match parser(code.s)
      case None => None
      case Some(defs) => SignatureIn(Lines(code.s), defs)
  }

  /** `_extract_signature_static` / `_extract_function_signature`: for each
      function in walk order, the search for its `def` line. */
  method ExtractSignature(code: Value, parser: PyParser) returns (signature: Option<string>)
    ensures signature == Signature(code, parser)
  {
    if !code.Str? {
      return None;
    }
    var tree := parser(code.s);
    if tree.None? {
      return None;
    }
    var defs := tree.value;
    var lines := Lines(code.s);
    for n := 0 to |defs|
      invariant SignatureIn(lines, defs) == SignatureIn(lines, defs[n..])
    {
      assert defs[n..][0] == defs[n] && defs[n..][1..] == defs[n + 1..];
      var found := FindDefLine(lines, defs[n].name);
      if found.Some? {
        signature := CollectSignature(lines, found.value);
        return;
      }
    }
    return None;
  }

  /** The `enumerate(lines)` search for a `def` line naming `name`. */
  method FindDefLine(lines: seq<string>, name: string) returns (found: Option<nat>)
    ensures found == DefLineFrom(lines, name, 0)
  {
    for i := 0 to |lines|
      invariant DefLineFrom(lines, name, 0) == DefLineFrom(lines, name, i)
    {
      if StartsWith(Strip(lines[i]), "def ") && Contains(lines[i], name) {
        return Some(i);
      }
    }
    return None;
  }

  /** The multi-line signature starting at line `i`. */
  method CollectSignature(lines: seq<string>, i: nat) returns (signature: Option<string>)
    requires i < |lines|
    ensures signature == Some(Strip(Unlines(lines[i..SigEnd(lines, i + 1)])))
  {
    var signatureLines := [lines[i]];
    var j := i + 1;
    while j < |lines| && !EndsWith(RStrip(signatureLines[|signatureLines| - 1]), ":")
      invariant i < j <= |lines|
      invariant signatureLines == lines[i..j] && signatureLines[|signatureLines| - 1] == lines[j - 1]
      invariant SigEnd(lines, i + 1) == SigEnd(lines, j)
      decreases |lines| - j
    {
      SigGrows(lines, i, j);
      signatureLines := signatureLines + [lines[j]];
      j := j + 1;
    }
    SigStops(lines, i, j);
    return Some(Strip(Unlines(signatureLines)));
  }

  /** A line that does not close the signature lets it take the next one. */
  lemma SigGrows(lines: seq<string>, i: nat, j: nat)
    requires i < j < |lines| && !Closes(lines[j - 1])
    ensures SigEnd(lines, j) == SigEnd(lines, j + 1)
    ensures lines[i..j + 1] == lines[i..j] + [lines[j]]
  {
  }

  /** At the end of the code or after a closing line the signature ends. */
  lemma SigStops(lines: seq<string>, i: nat, j: nat)
    requires i < j <= |lines| && (j == |lines| || Closes(lines[j - 1]))
    ensures SigEnd(lines, j) == j
  {
  }

  /** Stripped lines that begin with a `def` line begin with `def`. */
  lemma StartsWithDef(ls: seq<string>)
    requires |ls| >= 1 && StartsWith(Strip(ls[0]), "def ")
    ensures StartsWith(Strip(Unlines(ls)), "def")
  {
    var x := ls[0];
    StripEmptyIffBlank(x);
    LStripUnlines(ls);
    var u := Unlines(LStripLines(ls));
    assert LStripLines(ls) == [LStrip(x)] + ls[1..];
    if |ls| > 1 {
      JoinCons(LStrip(x), ls[1..], "\n");
    }
    assert LStrip(x) <= u;
    assert Strip(x) <= LStrip(x);
    assert u[..3] == "def";
    RStripKeeps(u, 2);
  }

  /** A signature found in the code is never empty: it begins with `def`.
      So the `if not signature` test only rejects a missing one. */
  lemma {:induction false} SignatureBeginsWithDef(lines: seq<string>, defs: seq<FuncDef>)
    ensures SignatureIn(lines, defs).Some? ==> StartsWith(SignatureIn(lines, defs).value, "def")
    decreases |defs|
  {
    if defs != [] {
      match DefLineFrom(lines, defs[0].name, 0)
      case Some(i) =>
        var e := SigEnd(lines, i + 1);
        assert lines[i..e][0] == lines[i];
        StartsWithDef(lines[i..e]);
      case None =>
        SignatureBeginsWithDef(lines, defs[1..]);
    }
  }

  /** The signature is the first `def` line of the first function, in walk
      order, with such a line, continued until a line closes it. */
  lemma SignatureSpec(lines: seq<string>, defs: seq<FuncDef>, n: nat, i: nat)
    requires n < |defs| && i < |lines|
    requires forall k :: 0 <= k < n ==> DefLineFrom(lines, defs[k].name, 0).None?
    requires DefLineFrom(lines, defs[n].name, 0) == Some(i)
    ensures SignatureIn(lines, defs) == Some(Strip(Unlines(lines[i..SigEnd(lines, i + 1)])))
  {
    SkipDefs(lines, defs, n);
    assert defs[n..][0] == defs[n];
  }

  /** Functions without a `def` line in the code are passed over. */
  lemma {:induction false} SkipDefs(lines: seq<string>, defs: seq<FuncDef>, n: nat)
    requires n <= |defs|
    requires forall k :: 0 <= k < n ==> DefLineFrom(lines, defs[k].name, 0).None?
    ensures SignatureIn(lines, defs) == SignatureIn(lines, defs[n..])
  {
    if n > 0 {
      SkipDefs(lines, defs, n - 1);
      var rest := defs[n - 1..];
      assert rest[0] == defs[n - 1] && rest[1..] == defs[n..];
      assert DefLineFrom(lines, rest[0].name, 0).None?;
    }
  }

  // ------------------------------------------------------------------ body

  /** Skips blank lines from `k` on (`not lines[k].strip()`). */
  function SkipBlank(lines: seq<string>, k: nat): (r: nat)
    ensures k <= r
    decreases |lines| - k
  {
    if k < |lines| && IsBlank(lines[k]) then SkipBlank(lines, k + 1) else k
  }

  /** Where the body starts: after the docstring when there is one, else at
      the first non-blank line after the `def` line. */
  function BodyStart(lines: seq<string>, f: FuncDef): nat {
    match f.docEnd
    case Some(e) => e
    case None => SkipBlank(lines, f.defLine + 1)
  }

  /** A line that starts with a non-whitespace character ends the body. */
  predicate TopLevel(line: string) {
    line != [] && !IsSpace(line[0]) && !IsBlank(line)
  }

  /** The lines from `k` up to the next top-level line. */
  function BodyLines(lines: seq<string>, k: nat): seq<string>
    decreases |lines| - k
  {
    if k >= |lines| || TopLevel(lines[k]) then [] else [lines[k]] + BodyLines(lines, k + 1)
  }

  /** The lines without their leading blank ones. */
  function DropBlankPrefix(ls: seq<string>): seq<string> {
    if ls != [] && IsBlank(ls[0]) then DropBlankPrefix(ls[1..]) else ls
  }

  /** `DropBlankPrefix` removes exactly the blank lines in front. */
  lemma {:induction false} DropBlankPrefixSpec(ls: seq<string>)
    ensures |DropBlankPrefix(ls)| <= |ls|
    ensures DropBlankPrefix(ls) == ls[|ls| - |DropBlankPrefix(ls)|..]
    ensures forall i :: 0 <= i < |ls| - |DropBlankPrefix(ls)| ==> IsBlank(ls[i])
    ensures DropBlankPrefix(ls) != [] ==> !IsBlank(DropBlankPrefix(ls)[0])
  {
    if ls != [] && IsBlank(ls[0]) {
      DropBlankPrefixSpec(ls[1..]);
      assert forall i :: 1 <= i < |ls| ==> ls[i] == ls[1..][i - 1];
    }
  }

  /** One body line after normalisation: a blank line becomes empty, a line
      at least `base` long loses its first `base` characters, any other line
      stays. */
  function Dedent(line: string, base: nat): string {
    if IsBlank(line) then ""
    else if |line| >= base then line[base..]
    else line
  }

  /** A non-blank line at least as indented as `base` loses whitespace and
      nothing else; a shorter line is kept. */
  lemma DedentSpec(line: string, base: nat)
    ensures IsBlank(line) ==> Dedent(line, base) == ""
    ensures !IsBlank(line) && LeadingSpaces(line) >= base ==>
      IsBlank(line[..base]) && line == line[..base] + Dedent(line, base)
    ensures !IsBlank(line) && |line| < base ==> Dedent(line, base) == line
  {
    if !IsBlank(line) && LeadingSpaces(line) >= base {
      DedentIndented(line, base);
    }
  }

  lemma DedentIndented(line: string, base: nat)
    requires !IsBlank(line) && LeadingSpaces(line) >= base
    ensures IsBlank(line[..base]) && line == line[..base] + Dedent(line, base)
  {
    BlankHead(line, base);
    assert Dedent(line, base) == line[base..];
    assert line == line[..base] + line[base..];
  }

  /** The first `base` characters of a line indented at least that far are
      whitespace. */
  lemma BlankHead(line: string, base: nat)
    requires base <= LeadingSpaces(line)
    ensures IsBlank(line[..base])
  {
    LeadingSpacesLongest(line);
    var head := line[..base];
    forall k | 0 <= k < base
      ensures IsSpace(head[k])
    {
      assert head[k] == line[k];
    }
  }

  /** A line long enough but less indented than `base` loses non-whitespace
      characters as well. */
  lemma DedentCutsText(line: string, base: nat)
    requires LeadingSpaces(line) < base <= |line|
    ensures !IsBlank(line[..base]) && Dedent(line, base) == line[base..]
  {
    var n := LeadingSpaces(line);
    LeadingSpacesLongest(line);
    assert line[..base][n] == line[n];
    assert !IsBlank(line);
  }

  function Normalized(ls: seq<string>, base: nat): (r: seq<string>)
    ensures |r| == |ls|
  {
    if ls == [] then [] else Normalized(ls[..|ls| - 1], base) + [Dedent(ls[|ls| - 1], base)]
  }

  /** Normalisation treats every line on its own. */
  lemma {:induction false} NormalizedSpec(ls: seq<string>, base: nat)
    ensures forall i :: 0 <= i < |ls| ==> Normalized(ls, base)[i] == Dedent(ls[i], base)
  {
    if ls != [] {
      NormalizedSpec(ls[..|ls| - 1], base);
    }
  }

  /** The body of function `f`: its lines up to the next top-level line,
      without leading blank lines, each shorn of the first one's
      indentation, joined and right-stripped; `None` when nothing is left. */
  function BodyOf(lines: seq<string>, f: FuncDef): Option<string> {
    var bl := DropBlankPrefix(BodyLines(lines, BodyStart(lines, f)));
    if bl == [] then None
    else Some(RStrip(Unlines(Normalized(bl, LeadingSpaces(bl[0])))))
  }

  /** What `_extract_body_static` and `_remove_docstring_and_extract_body`
      return for a record's `code`: the body of the first function in walk
      order. */
  function Body(code: Value, parser: PyParser): Option<string> {
    if !code.Str? then None
    else match parser(code.s)
      case None => None
      case Some(defs) => if defs == [] then None else BodyOf(Lines(code.s), defs[0])
  }

  /** `_extract_body_static` / `_remove_docstring_and_extract_body`: the
      body of the first function in walk order. */
  method ExtractBody(code: Value, parser: PyParser) returns (body: Option<string>)
    ensures body == Body(code, parser)
  {
    if !code.Str? {
      return None;
    }
    var tree := parser(code.s);
    if tree.None? || tree.value == [] {
      return None;
    }
    var lines := Lines(code.s);
    var bodyStart := FindBodyStart(lines, tree.value[0]);
    var bodyLines := CollectBody(lines, bodyStart);
    bodyLines := DropLeadingBlank(bodyLines);
    if bodyLines == [] {
      return None;
    }
    var baseIndent := |bodyLines[0]| - |LStrip(bodyLines[0])|;
    var normalized := Normalize(bodyLines, baseIndent);
    return Some(RStrip(Unlines(normalized)));
  }

  /** The line after the `def` line with blank lines skipped, or the end of
      the docstring when there is one. */
  method FindBodyStart(lines: seq<string>, f: FuncDef) returns (bodyStart: nat)
    ensures bodyStart == BodyStart(lines, f)
  {
    bodyStart := f.defLine + 1;
    while bodyStart < |lines| && IsBlank(lines[bodyStart])
      invariant SkipBlank(lines, bodyStart) == SkipBlank(lines, f.defLine + 1)
      decreases |lines| - bodyStart
    {
      bodyStart := bodyStart + 1;
    }
    if f.docEnd.Some? {
      bodyStart := f.docEnd.value;
    }
  }

  /** The lines from `bodyStart` up to the next top-level line. */
  method CollectBody(lines: seq<string>, bodyStart: nat) returns (bodyLines: seq<string>)
    ensures bodyLines == BodyLines(lines, bodyStart)
  {
    bodyLines := [];
    var i := bodyStart;
    while i < |lines|
      invariant BodyLines(lines, bodyStart) == bodyLines + BodyLines(lines, i)
      decreases |lines| - i
    {
      if TopLevel(lines[i]) {
        break;
      }
      bodyLines := bodyLines + [lines[i]];
      i := i + 1;
    }
  }

  /** The `pop(0)` loop over leading blank lines. */
  method DropLeadingBlank(ls: seq<string>) returns (r: seq<string>)
    ensures r == DropBlankPrefix(ls)
  {
    r := ls;
    while r != [] && IsBlank(r[0])
      invariant DropBlankPrefix(r) == DropBlankPrefix(ls)
    {
      r := r[1..];
    }
  }

  /** The normalisation loop. */
  method Normalize(bodyLines: seq<string>, baseIndent: nat) returns (normalized: seq<string>)
    ensures normalized == Normalized(bodyLines, baseIndent)
  {
    normalized := [];
    for k := 0 to |bodyLines|
      invariant normalized == Normalized(bodyLines[..k], baseIndent)
    {
      var line := bodyLines[k];
      assert bodyLines[..k + 1][..k] == bodyLines[..k];
      if !IsBlank(line) {
        if |line| >= baseIndent {
          normalized := normalized + [line[baseIndent..]];
        } else {
          normalized := normalized + [line];
        }
      } else {
        normalized := normalized + [""];
      }
    }
    assert bodyLines[..|bodyLines|] == bodyLines;
  }

  /** There is a body exactly when a non-blank line comes before the next
      top-level line; it then starts and ends with a non-whitespace character,
      so the `if not body` test only rejects a missing one. */
  lemma BodyShape(lines: seq<string>, f: FuncDef)
    ensures var ls := BodyLines(lines, BodyStart(lines, f));
      BodyOf(lines, f).None? <==> forall i :: 0 <= i < |ls| ==> IsBlank(ls[i])
    ensures BodyOf(lines, f).Some? ==>
      var b := BodyOf(lines, f).value;
      b != [] && !IsSpace(b[0]) && !IsSpace(b[|b| - 1])
  {
    var ls := BodyLines(lines, BodyStart(lines, f));
    var bl := DropBlankPrefix(ls);
    DropBlankPrefixSpec(ls);
    if bl != [] {
      assert ls[|ls| - |bl|] == bl[0];
      BlockEnds(bl);
    }
  }

  /** A block whose first line is not blank normalises to a text that
      begins and ends with a non-whitespace character. */
  lemma BlockEnds(bl: seq<string>)
    requires bl != [] && !IsBlank(bl[0])
    ensures var b := RStrip(Unlines(Normalized(bl, LeadingSpaces(bl[0]))));
      b != [] && !IsSpace(b[0]) && !IsSpace(b[|b| - 1])
  {
    var norm := Normalized(bl, LeadingSpaces(bl[0]));
    NormalizedHead(bl, LeadingSpaces(bl[0]));
    FirstLineHead(bl[0]);
    UnlinesHead(norm);
    var u := Unlines(norm);
    assert u[0] == norm[0][0];
    RStripEnds(u);
  }

  lemma NormalizedHead(ls: seq<string>, base: nat)
    requires ls != []
    ensures Normalized(ls, base)[0] == Dedent(ls[0], base)
  {
    NormalizedSpec(ls, base);
  }

  /** The first line of a block, shorn of its own indentation, begins with
      a non-whitespace character. */
  lemma FirstLineHead(x: string)
    requires !IsBlank(x)
    ensures Dedent(x, LeadingSpaces(x)) != [] && !IsSpace(Dedent(x, LeadingSpaces(x))[0])
  {
    LeadingSpacesLongest(x);
  }

  /** Joined lines begin with the first line. */
  lemma UnlinesHead(ls: seq<string>)
    requires ls != []
    ensures ls[0] <= Unlines(ls)
  {
    if |ls| > 1 {
      assert ls == [ls[0]] + ls[1..];
      JoinCons(ls[0], ls[1..], "\n");
    }
  }

  /** Right-stripping a text that begins with a non-whitespace character
      keeps that character and leaves one at the end. */
  lemma RStripEnds(u: string)
    requires u != [] && !IsSpace(u[0])
    ensures RStrip(u) != [] && RStrip(u)[0] == u[0] && !IsSpace(RStrip(u)[|RStrip(u)| - 1])
  {
    RStripKeeps(u, 0);
    TrailingSpacesLongest(u);
  }

  // --------------------------------------------------------------- quality

  /** `ratings.get(dimension, 0)` as a number; `None` where comparing it
      with a number raises `TypeError`. */
  function Score(ratings: map<string, Value>, dimension: string): Option<int> {
    match GetOr(ratings, dimension, Int(0))
    case Int(i) => Some(i)
    case Bool(b) => Some(if b then 1 else 0)
    case _ => None
  }

  /** The `require_all` branch: each dimension in order, false at the first
      one below its threshold; `None` when a comparison raises first. */
  function AllMeet(ratings: map<string, Value>, thresholds: seq<(string, int)>): Option<bool>
    decreases |thresholds|
  {
    if thresholds == [] then Some(true)
    else match Score(ratings, thresholds[0].0)
      case None => None
      case Some(v) => if v < thresholds[0].1 then Some(false) else AllMeet(ratings, thresholds[1..])
  }

  /** The other branch: true at the first dimension that meets its threshold. */
  function AnyMeets(ratings: map<string, Value>, thresholds: seq<(string, int)>): Option<bool>
    decreases |thresholds|
  {
    if thresholds == [] then Some(false)
    else match Score(ratings, thresholds[0].0)
      case None => None
      case Some(v) => if v >= thresholds[0].1 then Some(true) else AnyMeets(ratings, thresholds[1..])
  }

  /** `_check_quality`, with `min_ratings` as its items in order; `None`
      stands for the exception raised when `ratings` is not a dict or a
      score cannot be compared. */
  function CheckQuality(ratings: Value, minRatings: seq<(string, int)>, requireAll: bool): Option<bool> {
    if minRatings == [] then Some(true)
    else if !ratings.Dict? then None
    else if requireAll then AllMeet(ratings.fields, minRatings)
    else AnyMeets(ratings.fields, minRatings)
  }

  /** Every dimension of `thresholds` has a comparable score. */
  predicate Comparable(ratings: map<string, Value>, thresholds: seq<(string, int)>) {
    forall k :: 0 <= k < |thresholds| ==> Score(ratings, thresholds[k].0).Some?
  }

  /** Every dimension's score is at least its threshold. */
  predicate AllMeetThresholds(ratings: map<string, Value>, thresholds: seq<(string, int)>)
    requires Comparable(ratings, thresholds)
  {
    forall k :: 0 <= k < |thresholds| ==> Score(ratings, thresholds[k].0).value >= thresholds[k].1
  }

  /** Some dimension's score is at least its threshold. */
  predicate SomeMeetsThreshold(ratings: map<string, Value>, thresholds: seq<(string, int)>)
    requires Comparable(ratings, thresholds)
  {
    exists k :: 0 <= k < |thresholds| && Score(ratings, thresholds[k].0).value >= thresholds[k].1
  }

  lemma {:induction false} AllMeetSpec(ratings: map<string, Value>, thresholds: seq<(string, int)>)
    requires Comparable(ratings, thresholds)
    ensures AllMeet(ratings, thresholds) == Some(AllMeetThresholds(ratings, thresholds))
    decreases |thresholds|
  {
    if thresholds != [] {
      assert forall k :: 1 <= k < |thresholds| ==> thresholds[k] == thresholds[1..][k - 1];
      AllMeetSpec(ratings, thresholds[1..]);
    }
  }

  lemma {:induction false} AnyMeetsSpec(ratings: map<string, Value>, thresholds: seq<(string, int)>)
    requires Comparable(ratings, thresholds)
    ensures AnyMeets(ratings, thresholds) == Some(SomeMeetsThreshold(ratings, thresholds))
    decreases |thresholds|
  {
    if thresholds != [] {
      assert forall k :: 1 <= k < |thresholds| ==> thresholds[k] == thresholds[1..][k - 1];
      AnyMeetsSpec(ratings, thresholds[1..]);
    }
  }

  /** No thresholds always pass. With comparable scores, `require_all`
      passes when every dimension (a missing one scoring 0) meets its
      threshold and otherwise when at least one does. Ratings that are not
      a dict raise as soon as there is a threshold. */
  lemma CheckQualitySpec(ratings: Value, minRatings: seq<(string, int)>, requireAll: bool)
    ensures minRatings == [] ==> CheckQuality(ratings, minRatings, requireAll) == Some(true)
    ensures minRatings != [] && !ratings.Dict? ==> CheckQuality(ratings, minRatings, requireAll).None?
    ensures ratings.Dict? && Comparable(ratings.fields, minRatings) && requireAll ==>
      CheckQuality(ratings, minRatings, requireAll) == Some(AllMeetThresholds(ratings.fields, minRatings))
    ensures ratings.Dict? && Comparable(ratings.fields, minRatings) && !requireAll && minRatings != [] ==>
      CheckQuality(ratings, minRatings, requireAll) == Some(SomeMeetsThreshold(ratings.fields, minRatings))
  {
    if ratings.Dict? && Comparable(ratings.fields, minRatings) {
      AllMeetSpec(ratings.fields, minRatings);
      AnyMeetsSpec(ratings.fields, minRatings);
    }
  }

  /** A missing dimension scores 0. */
  lemma MissingScoresZero(ratings: map<string, Value>, dimension: string)
    requires dimension !in ratings
    ensures Score(ratings, dimension) == Some(0)
  {
  }

  /** The worker's quality gate: the same test written with a `passed` flag. */
  method QualityGate(ratings: Value, minRatings: seq<(string, int)>, requireAll: bool) returns (passes: Option<bool>)
    ensures passes == CheckQuality(ratings, minRatings, requireAll)
  {
    if minRatings == [] {
      return Some(true);
    }
    if !ratings.Dict? {
      return None;
    }
    var scores := ratings.fields;
    if requireAll {
      for i := 0 to |minRatings|
        invariant AllMeet(scores, minRatings) == AllMeet(scores, minRatings[i..])
      {
        assert minRatings[i..][1..] == minRatings[i + 1..];
        var v := Score(scores, minRatings[i].0);
        if v.None? {
          return None;
        }
        if v.value < minRatings[i].1 {
          return Some(false);
        }
      }
      return Some(true);
    } else {
      var passed := false;
      var i := 0;
      while i < |minRatings|
        invariant 0 <= i <= |minRatings|
        invariant !passed ==> AnyMeets(scores, minRatings) == AnyMeets(scores, minRatings[i..])
        invariant passed ==> AnyMeets(scores, minRatings) == Some(true)
        decreases |minRatings| - i, if passed then 0 else 1
      {
        assert minRatings[i..][1..] == minRatings[i + 1..];
        var v := Score(scores, minRatings[i].0);
        if v.None? {
          return None;
        }
        if v.value >= minRatings[i].1 {
          passed := true;
          break;
        }
        i := i + 1;
      }
      if !passed {
        return Some(false);
      }
      return Some(true);
    }
  }

  // --------------------------------------------------------------- records

  /** The two ChatML messages. */
  function Messages(user: string, assistant: string): Value {
    List([Dict(map["role" := Str("user"), "content" := Str(user)]),
          Dict(map["role" := Str("assistant"), "content" := Str(assistant)])])
  }

  /** The ChatML record cut down to `outputFields`; `ratings` is only put in
      when it is listed. */
  function ChatRecord(uid: Value, user: string, assistant: string, ratings: Value, outputFields: seq<string>): map<string, Value> {
    var full := map["uid" := uid, "messages" := Messages(user, assistant)]
      + (if "ratings" in outputFields then map["ratings" := ratings] else map[]);
    map k | k in full && k in outputFields :: full[k]
  }

  /** The record holds exactly the listed fields among `uid`, `messages` and
      `ratings`, with their values. */
  lemma ChatRecordFields(uid: Value, user: string, assistant: string, ratings: Value, outputFields: seq<string>)
    ensures var m := ChatRecord(uid, user, assistant, ratings, outputFields);
      (forall k :: k in m <==> k in outputFields && k in {"uid", "messages", "ratings"})
      && ("uid" in m ==> m["uid"] == uid)
      && ("messages" in m ==> m["messages"] == Messages(user, assistant))
      && ("ratings" in m ==> m["ratings"] == ratings)
  {
  }

  /** The outcome of converting one record: `Raised` for an exception,
      `NoRecord` for `None`. */
  datatype Conversion = Raised | NoRecord | Record(fields: map<string, Value>)

  /** `_convert_single_record`. */
  function ConvertSingle(record: map<string, Value>, outputFields: seq<string>, parser: PyParser): Conversion {
    var problemText := GetOr(record, "problem_text", Str(""));
    var code := GetOr(record, "code", Str(""));
    if !problemText.Str? then Raised
    else match Signature(code, parser)
      case None => NoRecord
      case Some(signature) =>
        if signature == [] then NoRecord
        else match Body(code, parser)
          case None => NoRecord
          case Some(body) =>
            if body == [] then NoRecord
            else Record(ChatRecord(GetOr(record, "uid", Null), HintRemoved(problemText.s) + "\n\n" + signature,
                                   body, GetOr(record, "ratings", Dict(map[])), outputFields))
  }

  /** `_convert_single_record`, calling the three extraction methods. */
  method ConvertSingleRecord(record: map<string, Value>, outputFields: seq<string>, parser: PyParser) returns (c: Conversion)
    ensures c == ConvertSingle(record, outputFields, parser)
  {
    var uid := GetOr(record, "uid", Null);
    var problemText := GetOr(record, "problem_text", Str(""));
    var code := GetOr(record, "code", Str(""));
    var ratings := GetOr(record, "ratings", Dict(map[]));
    if !problemText.Str? {
      return Raised;
    }
    var problemNoHint := RemoveHint(problemText.s);
    var signature := ExtractSignature(code, parser);
    if signature.None? || signature.value == [] {
      return NoRecord;
    }
    var body := ExtractBody(code, parser);
    if body.None? || body.value == [] {
      return NoRecord;
    }
    var userContent := problemNoHint + "\n\n" + signature.value;
    return Record(ChatRecord(uid, userContent, body.value, ratings, outputFields));
  }

  /** A record converts exactly when its problem text is a string and its
      code yields a signature and a body; a non-string problem text raises.
      The user message is the hint-free problem, a blank line and the
      signature; the assistant message is the body; the fields are the
      listed ones among `uid`, `messages` and `ratings`. */
  lemma ConvertSingleSpec(record: map<string, Value>, outputFields: seq<string>, parser: PyParser)
    ensures var c := ConvertSingle(record, outputFields, parser);
      var problemText := GetOr(record, "problem_text", Str(""));
      var code := GetOr(record, "code", Str(""));
      (c.Raised? <==> !problemText.Str?)
      && (c.Record? <==> problemText.Str? && Signature(code, parser).Some? && Body(code, parser).Some?)
      && (c.Record? ==>
            c.fields == ChatRecord(GetOr(record, "uid", Null),
                                   HintRemoved(problemText.s) + "\n\n" + Signature(code, parser).value,
                                   Body(code, parser).value, GetOr(record, "ratings", Dict(map[])), outputFields)
            && forall k :: k in c.fields ==> k in outputFields)
  {
    var code := GetOr(record, "code", Str(""));
    if code.Str? {
      var tree := parser(code.s);
      if tree.Some? {
        SignatureBeginsWithDef(Lines(code.s), tree.value);
        if tree.value != [] {
          BodyShape(Lines(code.s), tree.value[0]);
        }
      }
    }
  }

  /** The converter's filtering settings (`min_ratings` as its items in
      order, `require_all_above_threshold`, output `fields`). */
  datatype Settings = Settings(minRatings: seq<(string, int)>, requireAll: bool, outputFields: seq<string>)

  /** The settings when the configuration names none of them. */
  const Defaults := Settings([], true, ["uid", "messages"])

  /** `convert_record`: the quality check first, then the conversion. */
  function ConvertRecord(record: map<string, Value>, s: Settings, parser: PyParser): Conversion {
    match CheckQuality(GetOr(record, "ratings", Dict(map[])), s.minRatings, s.requireAll)
    case None => Raised
    case Some(false) => NoRecord
    case Some(true) => ConvertSingle(record, s.outputFields, parser)
  }

  // ---------------------------------------------------------------- worker

  /** What a worker reports: `Failure` covers `json_error`, `parse` and
      `error`; `Crash` is an exception the worker does not catch. */
  datatype Status = Success(record: map<string, Value>) | Quality | Failure | Crash

  /** `_process_record_worker` on one input line. */
  function WorkerStatus(line: string, json: string -> Option<Value>, s: Settings, parser: PyParser): Status {
    match json(line)
    case None => Failure
    case Some(v) =>
      if !v.Dict? then Crash
      else match CheckQuality(GetOr(v.fields, "ratings", Dict(map[])), s.minRatings, s.requireAll)
        case None => Crash
        case Some(false) => Quality
        case Some(true) =>
          match ConvertSingle(v.fields, s.outputFields, parser)
          case Record(m) => if m == map[] then Failure else Success(m)
          case _ => Failure
  }

  /** `_process_record_worker`. */
  method ProcessRecord(line: string, json: string -> Option<Value>, s: Settings, parser: PyParser) returns (st: Status)
    ensures st == WorkerStatus(line, json, s, parser)
  {
    var parsed := json(line);
    if parsed.None? {
      return Failure;
    }
    if !parsed.value.Dict? {
      return Crash;
    }
    var record := parsed.value.fields;
    var ratings := GetOr(record, "ratings", Dict(map[]));
    var gate := QualityGate(ratings, s.minRatings, s.requireAll);
    if gate.None? {
      return Crash;
    }
    if !gate.value {
      return Quality;
    }
    var c := ConvertSingleRecord(record, s.outputFields, parser);
    if c.Record? && c.fields != map[] {
      return Success(c.fields);
    }
    return Failure;
  }

  /** The worker and `convert_record` agree: the worker writes a record
      exactly when `convert_record` returns a non-empty one, and drops one for
      quality exactly when `convert_record` returns `None` on the quality test. */
  lemma WorkerMatchesConvertRecord(line: string, json: string -> Option<Value>, s: Settings, parser: PyParser)
    requires json(line).Some? && json(line).value.Dict?
    ensures var record := json(line).value.fields;
      var st := WorkerStatus(line, json, s, parser);
      var c := ConvertRecord(record, s, parser);
      (st.Success? <==> c.Record? && c.fields != map[])
      && (st.Success? ==> c == Record(st.record))
      && (st.Quality? <==> CheckQuality(GetOr(record, "ratings", Dict(map[])), s.minRatings, s.requireAll) == Some(false))
      && (st.Crash? <==> c.Raised? && CheckQuality(GetOr(record, "ratings", Dict(map[])), s.minRatings, s.requireAll).None?)
  {
  }

  // ------------------------------------------------------------------ file

  /** `input_lines`: the stripped non-blank lines of the input file. */
  function InputLines(file: seq<string>): (r: seq<string>)
    ensures |r| <= |file|
  {
    if file == [] then []
    else
      var line := Strip(file[|file| - 1]);
      InputLines(file[..|file| - 1]) + if line == [] then [] else [line]
  }

  /** The workers' reports, in input order (`pool.imap` keeps it). */
  function Statuses(lines: seq<string>, json: string -> Option<Value>, s: Settings, parser: PyParser): (r: seq<Status>)
    ensures |r| == |lines|
    ensures forall i :: 0 <= i < |lines| ==> r[i] == WorkerStatus(lines[i], json, s, parser)
  {
    seq(|lines|, i requires 0 <= i < |lines| => WorkerStatus(lines[i], json, s, parser))
  }

  /** The records written for a run of reports, in order. */
  function Written(sts: seq<Status>): seq<map<string, Value>> {
    if sts == [] then []
    else Written(sts[..|sts| - 1]) + if sts[|sts| - 1].Success? then [sts[|sts| - 1].record] else []
  }

  /** The statistics `convert_file` returns. */
  datatype Stats = Stats(total: nat, converted: nat, filteredQuality: nat, failedParse: nat)

  /** The counters after a run of reports. */
  function Tally(total: nat, sts: seq<Status>): Stats {
    if sts == [] then Stats(total, 0, 0, 0)
    else
      var c := Tally(total, sts[..|sts| - 1]);
      match sts[|sts| - 1]
      case Success(_) => c.(converted := c.converted + 1)
      case Quality => c.(filteredQuality := c.filteredQuality + 1)
      case _ => c.(failedParse := c.failedParse + 1)
  }

  /** One more report: a success adds its record, and every report that
      is not a crash moves one counter. */
  lemma ReportStep(total: nat, sts: seq<Status>, i: nat)
    requires i < |sts|
    ensures Crash !in sts[..i] && sts[i] != Crash ==> Crash !in sts[..i + 1]
    ensures Written(sts[..i + 1]) == Written(sts[..i]) + if sts[i].Success? then [sts[i].record] else []
    ensures var c := Tally(total, sts[..i]);
      Tally(total, sts[..i + 1]) ==
        match sts[i]
        case Success(_) => c.(converted := c.converted + 1)
        case Quality => c.(filteredQuality := c.filteredQuality + 1)
        case _ => c.(failedParse := c.failedParse + 1)
  {
    var next := sts[..i + 1];
    assert next[..|next| - 1] == sts[..i] && next[|next| - 1] == sts[i];
    assert next == sts[..i] + [sts[i]];
  }

  /** The reports before the first crash. */
  function UpToCrash(sts: seq<Status>): (r: seq<Status>)
    ensures r <= sts
    ensures Crash !in r
  {
    if sts == [] || sts[0] == Crash then [] else [sts[0]] + UpToCrash(sts[1..])
  }

  lemma {:induction false} UpToCrashAt(sts: seq<Status>, i: nat)
    requires i <= |sts| && Crash !in sts[..i]
    requires i == |sts| || sts[i] == Crash
    ensures UpToCrash(sts) == sts[..i]
    decreases i
  {
    if i > 0 {
      assert sts[0] in sts[..i];
      assert sts[1..][..i - 1] == sts[1..i];
      assert forall x :: x in sts[1..i] ==> x in sts[..i];
      UpToCrashAt(sts[1..], i - 1);
    }
  }

  /** Without a crash every report is counted once, and the converted count
      is the number of records written. */
  lemma {:induction false} TallySums(total: nat, sts: seq<Status>)
    requires Crash !in sts
    ensures var t := Tally(total, sts);
      t.converted + t.filteredQuality + t.failedParse == |sts|
      && t.converted == |Written(sts)| && t.total == total
  {
    if sts != [] {
      assert forall x :: x in sts[..|sts| - 1] ==> x in sts;
      TallySums(total, sts[..|sts| - 1]);
    }
  }

  /** `convert_file`: every input line goes to a worker, successes are
      written in input order and each report bumps one counter. A worker's
      uncaught exception ends the run (`crashed`) after the records before it
      were written. */
  method ConvertFile(file: seq<string>, json: string -> Option<Value>, s: Settings, parser: PyParser)
    returns (crashed: bool, stats: Stats, written: seq<map<string, Value>>)
    ensures var sts := Statuses(InputLines(file), json, s, parser);
      (crashed <==> Crash in sts)
      && written == Written(UpToCrash(sts))
      && (!crashed ==> stats == Tally(|sts|, sts))
  {
    var inputLines := InputLines(file);
    ghost var sts := Statuses(inputLines, json, s, parser);
    stats := Stats(|inputLines|, 0, 0, 0);
    written := [];
    for i := 0 to |inputLines|
      invariant Crash !in sts[..i]
      invariant stats == Tally(|inputLines|, sts[..i])
      invariant written == Written(sts[..i])
    {
      var st := ProcessRecord(inputLines[i], json, s, parser);
      assert st == sts[i];
      ReportStep(|inputLines|, sts, i);
      if st == Crash {
        UpToCrashAt(sts, i);
        return true, stats, written;
      }
      if st.Success? {
        written := written + [st.record];
        stats := stats.(converted := stats.converted + 1);
      } else if st == Quality {
        stats := stats.(filteredQuality := stats.filteredQuality + 1);
      } else {
        stats := stats.(failedParse := stats.failedParse + 1);
      }
    }
    assert sts[..|inputLines|] == sts;
    UpToCrashAt(sts, |inputLines|);
    return false, stats, written;
  }

  /** The counters of a finished run add up to `total`, and `converted` is
      the number of records written. */
  lemma ConvertFileCounts(file: seq<string>, json: string -> Option<Value>, s: Settings, parser: PyParser)
    requires Crash !in Statuses(InputLines(file), json, s, parser)
    ensures var sts := Statuses(InputLines(file), json, s, parser);
      var t := Tally(|sts|, sts);
      t.total == |InputLines(file)|
      && t.converted + t.filteredQuality + t.failedParse == t.total
      && t.converted == |Written(UpToCrash(sts))|
  {
    var sts := Statuses(InputLines(file), json, s, parser);
    TallySums(|sts|, sts);
    UpToCrashAt(sts, |sts|);
    assert sts[..|sts|] == sts;
  }
}
