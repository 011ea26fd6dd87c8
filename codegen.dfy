/** evoselfcode/datagen/preprocess/codegen.py: the third generator. For
    every function skeleton it asks the completion endpoint for a function
    body, joins skeleton and body into an implementation, drops duplicates
    and (optionally) code that does not parse, and sends the completions
    that came back in the wrong form through one retry round. */
module CodeGen {
  import opened Text
  import opened Json
  import opened Sequences
  import opened Engine

  const ProblemPlaceholder: string := "{{problem}}"
  const SkeletonPlaceholder: string := "{{skeleton}}"

  /** `_build_prompt(problem_text, skeleton_code, template)`: the problem
      placeholders are filled first, then every skeleton placeholder of the
      result. */
  function BuildPrompt(problemText: string, skeletonCode: string, template: string): string {
    Replace(Replace(template, ProblemPlaceholder, Strip(problemText)), SkeletonPlaceholder, Strip(skeletonCode))
  }

  /** A template without placeholders is sent as it is. */
  lemma BuildPromptWithoutPlaceholders(problemText: string, skeletonCode: string, template: string)
    requires !Contains(template, ProblemPlaceholder) && !Contains(template, SkeletonPlaceholder)
    ensures BuildPrompt(problemText, skeletonCode, template) == template
  {
    assert Find(template, ProblemPlaceholder).None?;
    assert Find(template, SkeletonPlaceholder).None?;
  }

  /** A template with one problem placeholder, at `i`, gets the stripped
      problem there; if the text then holds one skeleton placeholder, at
      `j`, the stripped skeleton goes there, and nothing else changes. */
  lemma BuildPromptFills(problemText: string, skeletonCode: string, template: string, i: nat, j: nat)
    requires OccursAt(template, ProblemPlaceholder, i)
    requires forall m :: 0 <= m < i ==> !OccursAt(template, ProblemPlaceholder, m)
    requires !Contains(template[i + |ProblemPlaceholder|..], ProblemPlaceholder)
    requires var filled := template[..i] + Strip(problemText) + template[i + |ProblemPlaceholder|..];
      OccursAt(filled, SkeletonPlaceholder, j) &&
      (forall m :: 0 <= m < j ==> !OccursAt(filled, SkeletonPlaceholder, m)) &&
      !Contains(filled[j + |SkeletonPlaceholder|..], SkeletonPlaceholder)
    ensures var filled := template[..i] + Strip(problemText) + template[i + |ProblemPlaceholder|..];
      BuildPrompt(problemText, skeletonCode, template) ==
      filled[..j] + Strip(skeletonCode) + filled[j + |SkeletonPlaceholder|..]
  {
    ReplaceOnce(template, ProblemPlaceholder, Strip(problemText), i);
    var filled := template[..i] + Strip(problemText) + template[i + |ProblemPlaceholder|..];
    ReplaceOnce(filled, SkeletonPlaceholder, Strip(skeletonCode), j);
  }

  const ImportPrefix: string := "import "
  const FromPrefix: string := "from "

  /** A stripped line that is an import statement. */
  predicate IsImport(stripped: string) {
    StartsWith(stripped, ImportPrefix) || StartsWith(stripped, FromPrefix)
  }

  /** The stripped import lines among `lines`, in order. */
  function Imports(lines: seq<string>): seq<string> {
    if lines == [] then []
    else
      var last := Strip(lines[|lines| - 1]);
      Imports(lines[..|lines| - 1]) + if IsImport(last) then [last] else []
  }

  /** Every import found is a stripped import statement, and every line
      that is one, once stripped, is found. */
  lemma {:induction false} ImportsSpec(lines: seq<string>)
    ensures |Imports(lines)| <= |lines|
    ensures forall x :: x in Imports(lines) ==> IsImport(x) && Strip(x) == x
    ensures forall i :: 0 <= i < |lines| && IsImport(Strip(lines[i])) ==> Strip(lines[i]) in Imports(lines)
    decreases |lines|
  {
    if lines != [] {
      var init := lines[..|lines| - 1];
      ImportsSpec(init);
      StripProperties(lines[|lines| - 1]);
      forall i | 0 <= i < |lines| && IsImport(Strip(lines[i]))
        ensures Strip(lines[i]) in Imports(lines)
      {
        if i < |init| {
          assert lines[i] == init[i];
        }
      }
    }
  }

  /** `_extract_imports(code)` */
  method ExtractImports(code: string) returns (imports: seq<string>)
    ensures imports == Imports(Lines(code))
  {
    var lines := Lines(code);
    imports := [];
    for n := 0 to |lines|
      invariant imports == Imports(lines[..n])
    {
      assert lines[..n + 1][..n] == lines[..n];
      var stripped := Strip(lines[n]);
      if StartsWith(stripped, ImportPrefix) || StartsWith(stripped, FromPrefix) {
        imports := imports + [stripped];
      }
    }
    assert lines[..|lines|] == lines;
  }

  const DefPrefix: string := "def "

  /** `_check_body_format(body)` */
  function CheckBodyFormat(body: string): bool {
    !StartsWith(LStrip(body), DefPrefix)
  }

  /** A text is in the wrong format exactly when it is a whole function:
      `def ` after some leading whitespace. */
  lemma CheckBodyFormatSpec(body: string)
    ensures !CheckBodyFormat(body) <==> exists k :: 0 <= k <= |body| && IsBlank(body[..k]) && StartsWith(body[k..], DefPrefix)
  {
    var n := LeadingSpaces(body);
    LeadingSpacesLongest(body);
    assert IsBlank(body[..n]);
    forall k | 0 <= k <= |body| && IsBlank(body[..k]) && StartsWith(body[k..], DefPrefix)
      ensures k == n
    {
      assert body[k] == 'd';
    }
  }

  /** A line that holds code: not blank and not a comment once stripped. */
  predicate IsCodeLine(line: string) {
    Strip(line) != [] && !StartsWith(Strip(line), "#")
  }

  /** Some line of the list is code. */
  predicate AnyCode(lines: seq<string>) {
    lines != [] && (IsCodeLine(lines[0]) || AnyCode(lines[1..]))
  }

  lemma {:induction false} AnyCodeSpec(lines: seq<string>)
    ensures AnyCode(lines) <==> exists i :: 0 <= i < |lines| && IsCodeLine(lines[i])
    decreases |lines|
  {
    if lines != [] {
      AnyCodeSpec(lines[1..]);
      if AnyCode(lines[1..]) {
        var i :| 0 <= i < |lines| - 1 && IsCodeLine(lines[1..][i]);
        assert IsCodeLine(lines[i + 1]);
      }
      if exists i :: 0 <= i < |lines| && IsCodeLine(lines[i]) {
        var i :| 0 <= i < |lines| && IsCodeLine(lines[i]);
        if i > 0 {
          assert lines[1..][i - 1] == lines[i];
        }
      }
    }
  }

  /** What `_check_body_has_code` answers. */
  predicate HasCode(body: string) {
    AnyCode(Lines(body))
  }

  /** A body has code exactly when one of its lines does. */
  lemma HasCodeSpec(body: string)
    ensures HasCode(body) <==> exists i :: 0 <= i < |Lines(body)| && IsCodeLine(Lines(body)[i])
  {
    AnyCodeSpec(Lines(body));
  }

  /** A blank body has no code line, so the early `return False` of
      `_check_body_has_code` agrees with its loop. */
  lemma BlankHasNoCode(body: string)
    requires IsBlank(body)
    ensures !HasCode(body)
  {
    SplitBlank(body, '\n');
    HasCodeSpec(body);
    forall i | 0 <= i < |Lines(body)|
      ensures !IsCodeLine(Lines(body)[i])
    {
      StripEmptyIffBlank(Lines(body)[i]);
    }
  }

  /** `_check_body_has_code(body)` */
  method CheckBodyHasCode(body: string) returns (r: bool)
    ensures r == HasCode(body)
  {
    StripEmptyIffBlank(body);
    if body == [] || Strip(body) == [] {
      BlankHasNoCode(body);
      return false;
    }
    var lines := Lines(body);
    for i := 0 to |lines|
      invariant AnyCode(lines[i..]) == AnyCode(lines)
    {
      assert lines[i..][0] == lines[i] && lines[i..][1..] == lines[i + 1..];
      var stripped := Strip(lines[i]);
      if stripped != [] && !StartsWith(stripped, "#") {
        assert IsCodeLine(lines[i]);
        return true;
      }
    }
    return false;
  }

  const Indent: string := "    "

  /** One body line as `_combine_skeleton_and_body` indents it. */
  function IndentLine(line: string): string {
    if Strip(line) == [] then line
    else if StartsWith(line, Indent) then line
    else Indent + LStrip(line)
  }

  /** The indented body lines. */
  function Indented(lines: seq<string>): (r: seq<string>)
    ensures |r| == |lines|
    ensures forall i :: 0 <= i < |lines| ==> r[i] == IndentLine(lines[i])
  {
    seq(|lines|, i requires 0 <= i < |lines| => IndentLine(lines[i]))
  }

  lemma IndentedSnoc(lines: seq<string>, i: nat)
    requires i < |lines|
    ensures Indented(lines[..i + 1]) == Indented(lines[..i]) + [IndentLine(lines[i])]
  {
    var l, r := Indented(lines[..i + 1]), Indented(lines[..i]) + [IndentLine(lines[i])];
    forall k | 0 <= k < |l|
      ensures l[k] == r[k]
    {
      assert lines[..i + 1][k] == lines[k];
    }
  }

  /** The implementation built from a skeleton and a body. */
  function Combined(skeleton: string, body: string): string {
    RStrip(skeleton) + "\n" + Unlines(Indented(Lines(body)))
  }

  /** `_combine_skeleton_and_body(skeleton, body)` */
  method CombineSkeletonAndBody(skeleton: string, body: string) returns (full: string)
    ensures full == Combined(skeleton, body)
  {
    var head := RStrip(skeleton);
    var bodyLines := Lines(body);
    var indentedBody: seq<string> := [];
    for i := 0 to |bodyLines|
      invariant indentedBody == Indented(bodyLines[..i])
    {
      IndentedSnoc(bodyLines, i);
      var line := bodyLines[i];
      if Strip(line) != [] {
        if !StartsWith(line, Indent) {
          indentedBody := indentedBody + [Indent + LStrip(line)];
        } else {
          indentedBody := indentedBody + [line];
        }
      } else {
        indentedBody := indentedBody + [line];
      }
    }
    assert bodyLines[..|bodyLines|] == bodyLines;
    full := head + "\n" + Unlines(indentedBody);
  }

  /** Indenting keeps a line's text: blank lines and lines that already
      start with four spaces are unchanged, every other line gets four
      spaces in place of its leading whitespace; no line gains a newline. */
  lemma IndentLineSpec(line: string)
    ensures IsBlank(line) ==> IndentLine(line) == line
    ensures !IsBlank(line) ==> StartsWith(IndentLine(line), Indent) && LStrip(IndentLine(line)) == LStrip(line)
    ensures StartsWith(line, Indent) ==> IndentLine(line) == line
    ensures '\n' !in line ==> '\n' !in IndentLine(line)
  {
    StripEmptyIffBlank(line);
    LeadingSpacesLongest(line);
    var l := LStrip(line);
    if !IsBlank(line) && !StartsWith(line, Indent) {
      LeadingSpacesPrefix(Indent, l);
      assert LeadingSpaces(l) == 0 by {
        assert l[0] == line[LeadingSpaces(line)];
      }
      assert (Indent + l)[|Indent|..] == l;
    } else if !IsBlank(line) {
      assert IndentLine(line) == line;
    }
    if '\n' !in line && !IsBlank(line) && !StartsWith(line, Indent) {
      assert forall c :: c in l ==> c in line;
    }
  }

  /** The implementation is the right-stripped skeleton, a newline, and
      then exactly the body's lines, one for one, each indented as
      `IndentLine` says. */
  lemma CombinedSpec(skeleton: string, body: string)
    ensures var full := Combined(skeleton, body);
      StartsWith(full, RStrip(skeleton) + "\n") &&
      var tail := full[|RStrip(skeleton)| + 1..];
      Lines(tail) == Indented(Lines(body)) && |Lines(tail)| == |Lines(body)|
    ensures forall i :: 0 <= i < |Lines(body)| ==>
      var line := Lines(body)[i];
      (IsBlank(line) ==> Indented(Lines(body))[i] == line) &&
      (!IsBlank(line) ==> StartsWith(Indented(Lines(body))[i], Indent) && LStrip(Indented(Lines(body))[i]) == LStrip(line))
  {
    var lines := Lines(body);
    var ind := Indented(lines);
    forall i | 0 <= i < |lines|
      ensures '\n' !in ind[i]
      ensures IsBlank(lines[i]) ==> ind[i] == lines[i]
      ensures !IsBlank(lines[i]) ==> StartsWith(ind[i], Indent) && LStrip(ind[i]) == LStrip(lines[i])
    {
      IndentLineSpec(lines[i]);
    }
    SplitJoin(ind, '\n');
    var full := Combined(skeleton, body);
    var head := RStrip(skeleton) + "\n";
    assert full == head + Unlines(ind);
    assert full[|RStrip(skeleton)| + 1..] == Unlines(ind);
  }

  /** The item test of `_load_skeletons`: with `skip_invalid`, an item whose
      `valid` flag (default true) is falsy is skipped, and `item.get` raises
      on anything but a dict; then both keys must be `in` the item (`and`
      short-circuits, and `in` raises on JSON scalars). */
  function SkeletonKept(item: Value, problemKey: string, skeletonKey: string, validKey: string, skipInvalid: bool): Option<bool> {
    if skipInvalid && !item.Dict? then None
    else if skipInvalid && !Truthy(GetOr(item.fields, validKey, Bool(true))) then Some(false)
    else
      match KeyIn(item, problemKey)
      case None => None
      case Some(false) => Some(false)
      case Some(true) => KeyIn(item, skeletonKey)
  }

  function SkeletonTest(problemKey: string, skeletonKey: string, validKey: string, skipInvalid: bool): Value -> Option<bool> {
    (item: Value) => SkeletonKept(item, problemKey, skeletonKey, validKey, skipInvalid)
  }

  /** The flag key `generate` passes to `_load_skeletons`. */
  const ValidKey: string := "valid"

  /** `_load_skeletons(input_file, problem_key, skeleton_key,
      function_name_key, valid_key, skip_invalid)`; the function name key
      is not used by it. */
  method LoadSkeletons(lines: seq<string>, parse: string -> Option<Value>, problemKey: string, skeletonKey: string,
                       validKey: string, skipInvalid: bool)
    returns (skeletons: Option<seq<Value>>)
    ensures skeletons == Loaded(lines, parse, SkeletonTest(problemKey, skeletonKey, validKey, skipInvalid))
  {
    skeletons := LoadItems(lines, parse, SkeletonTest(problemKey, skeletonKey, validKey, skipInvalid));
  }

  /** A skeleton record `_load_skeletons` keeps: it holds both keys and,
      with `skip_invalid`, is a dict whose `valid` flag is truthy or absent. */
  predicate Qualifies(v: Value, problemKey: string, skeletonKey: string, validKey: string, skipInvalid: bool) {
    KeyIn(v, problemKey) == Some(true) && KeyIn(v, skeletonKey) == Some(true) &&
    (skipInvalid ==> v.Dict? && Truthy(GetOr(v.fields, validKey, Bool(true))))
  }

  /** Loading raises exactly when some parsed line is a JSON scalar, or,
      with `skip_invalid`, anything but a dict. Otherwise it keeps, in file
      order, exactly the parsed records that qualify. */
  lemma LoadedSkeletons(lines: seq<string>, parse: string -> Option<Value>, problemKey: string, skeletonKey: string,
                        validKey: string, skipInvalid: bool)
    ensures var test := SkeletonTest(problemKey, skeletonKey, validKey, skipInvalid);
      Loaded(lines, parse, test).None? <==>
      exists v :: v in Parsed(lines, parse) && (KeyIn(v, problemKey).None? || (skipInvalid && !v.Dict?))
    ensures var test := SkeletonTest(problemKey, skeletonKey, validKey, skipInvalid);
      Loaded(lines, parse, test).Some? ==>
      var ss := Loaded(lines, parse, test).value;
      IsSubseq(ss, Parsed(lines, parse)) &&
      (forall v :: v in ss ==> Qualifies(v, problemKey, skeletonKey, validKey, skipInvalid)) &&
      forall v :: v in Parsed(lines, parse) && Qualifies(v, problemKey, skeletonKey, validKey, skipInvalid) ==> v in ss
  {
    var test := SkeletonTest(problemKey, skeletonKey, validKey, skipInvalid);
    LoadedSpec(lines, parse, test);
    forall v
      ensures test(v).None? <==> KeyIn(v, problemKey).None? || (skipInvalid && !v.Dict?)
    {
      KeyInSameKind(v, problemKey, skeletonKey);
    }
  }

  /** `in` raises on an item for every key or for none. */
  lemma KeyInSameKind(v: Value, a: string, b: string)
    ensures KeyIn(v, a).None? <==> KeyIn(v, b).None?
  {
  }

  /** The skeletons `generate` works on: loaded, then truncated to
      `num_samples`; `None` when loading raises. */
  function Input(lines: seq<string>, parse: string -> Option<Value>, problemKey: string, skeletonKey: string,
                 skipInvalid: bool, numSamples: Option<int>): Option<seq<Value>> {
    match Loaded(lines, parse, SkeletonTest(problemKey, skeletonKey, ValidKey, skipInvalid))
    case None => None
    case Some(ss) => Some(Take(ss, numSamples))
  }

  /** What a codegen run depends on besides its input: the keys it reads,
      the template, `validate_syntax`, the hash (`_compute_hash`) and whether
      `ast.parse` accepts a code string (`_validate_syntax`). */
  datatype Setup = Setup(problemKey: string, skeletonKey: string, functionNameKey: string, template: string,
                         validateSyntax: bool, hash: string -> Uid, parses: string -> bool)

  /** `s.get(problem_key, "")` and `s.get(skeleton_key, "")` for skeleton
      record `s`, when both are strings. `None` stands for the
      `AttributeError` building its prompt raises otherwise. */
  function Texts(s: Value, cfg: Setup): Option<(string, string)> {
    if !s.Dict? then None
    else
      match (GetOr(s.fields, cfg.problemKey, Str("")), GetOr(s.fields, cfg.skeletonKey, Str("")))
      case (Str(p), Str(c)) => Some((p, c))
      case _ => None
  }

  /** The prompt of one skeleton record. */
  function PromptOf(cfg: Setup): Value -> Option<string> {
    (s: Value) => match Texts(s, cfg)
      case None => None
      case Some(pc) => Some(BuildPrompt(pc.0, pc.1, cfg.template))
  }

  /** The skeleton code of a record whose prompt was built. */
  function SkeletonCode(s: Value, cfg: Setup): string {
    match Texts(s, cfg)
    case None => ""
    case Some(pc) => pc.1
  }

  /** What `generate` makes of one completion: nothing when it is blank, a
      retry task when it is a whole function or holds no code line,
      otherwise a body (the stripped text). */
  datatype Verdict = Blank | Retry | Body(code: string)

  function Classify(text: string): Verdict {
    var body := Strip(text);
    if body == [] then Blank
    else if !CheckBodyFormat(body) || !HasCode(body) then Retry
    else Body(body)
  }

  /** Nothing is made of a blank completion; a body is the stripped text,
      not a whole function and with a code line; anything else is retried. */
  lemma ClassifySpec(text: string)
    ensures Classify(text).Blank? <==> IsBlank(text)
    ensures Classify(text).Body? ==> Classify(text).code == Strip(text) && CheckBodyFormat(Strip(text)) && HasCode(Strip(text))
    ensures Classify(text).Retry? <==> !IsBlank(text) && (!CheckBodyFormat(Strip(text)) || !HasCode(Strip(text)))
  {
    StripEmptyIffBlank(text);
  }

  /** The implementation record of `body` for skeleton record `s`; the
      problem text and function name are the record's values as they are. */
  function Implement(s: Value, body: string, cfg: Setup): Record {
    var fields := if s.Dict? then s.fields else map[];
    var full := Combined(SkeletonCode(s, cfg), body);
    Implementation(cfg.hash(full), GetOr(fields, "source", Str("UNKNOWN")), GetOr(fields, cfg.problemKey, Str("")),
                   full, GetOr(fields, cfg.functionNameKey, Str("")))
  }

  /** An accepted implementation: its uid is the hash of its code, and with
      `validate_syntax` the code parses. */
  predicate WellFormed(r: Record, cfg: Setup) {
    r.Implementation? && r.uid == cfg.hash(r.fullCode) && (cfg.validateSyntax ==> cfg.parses(r.fullCode))
  }

  function WellFormedIn(cfg: Setup): Record -> bool {
    (r: Record) => WellFormed(r, cfg)
  }

  /** The offer of one completion for skeleton `s`: a body's implementation,
      admissible unless `validate_syntax` is on and the code does not
      parse. Blank texts and retry cases offer nothing. */
  function TextOffers(s: Value, text: string, cfg: Setup): (os: seq<Offer>)
    ensures |os| <= 1
    ensures os != [] <==> Classify(text).Body?
    ensures forall o :: o in os ==> (o.admissible ==> WellFormed(o.rec, cfg))
  {
    match Classify(text)
    case Body(code) =>
      var r := Implement(s, code, cfg);
      [Offer(r, !cfg.validateSyntax || cfg.parses(r.fullCode))]
    case _ => []
  }

  /** The record offered for a body carries the skeleton's `source`
      (default `"UNKNOWN"`), problem text and function name, and the
      skeleton joined with the stripped completion. */
  lemma TextOffersShape(s: Value, text: string, cfg: Setup)
    requires s.Dict? && Classify(text).Body?
    ensures var o := TextOffers(s, text, cfg)[0];
      o.rec.fullCode == Combined(SkeletonCode(s, cfg), Strip(text)) &&
      o.rec.source == GetOr(s.fields, "source", Str("UNKNOWN")) &&
      o.rec.problemText == GetOr(s.fields, cfg.problemKey, Str("")) &&
      o.rec.functionName == GetOr(s.fields, cfg.functionNameKey, Str("")) &&
      (o.admissible <==> !cfg.validateSyntax || cfg.parses(o.rec.fullCode))
  {
  }

  /** What each text of a reply to `batch` offers: list `i` answers skeleton `i`. */
  function BatchTexts(batch: seq<Value>, cfg: Setup): (nat, string) -> seq<Offer> {
    (i: nat, text: string) => if i < |batch| then TextOffers(batch[i], text, cfg) else []
  }

  /** The retry tasks the first `n` completions for skeleton `s` add. */
  function ListTasks(s: Value, texts: seq<string>, n: nat): (r: seq<Value>)
    requires n <= |texts|
    ensures forall x :: x in r ==> x == s
  {
    if n == 0 then [] else ListTasks(s, texts, n - 1) + if Classify(texts[n - 1]).Retry? then [s] else []
  }

  /** `retry_tasks` after the first `n` lists of a reply: one task per
      completion for the list's skeleton that was a retry case. */
  function ReplyTasks(batch: seq<Value>, lists: seq<seq<string>>, n: nat): (r: seq<Value>)
    requires n <= |lists| <= |batch|
    ensures forall x :: x in r ==> x in batch
  {
    if n == 0 then [] else ReplyTasks(batch, lists, n - 1) + ListTasks(batch[n - 1], lists[n - 1], |lists[n - 1]|)
  }

  /** The retry offers of one task's completions from `j` on. */
  function Candidates(s: Value, texts: seq<string>, cfg: Setup, j: nat): seq<Offer>
    decreases |texts| - j
  {
    if j >= |texts| then [] else TextOffers(s, texts[j], cfg) + Candidates(s, texts, cfg, j + 1)
  }

  /** One retry task through the dedup step: the first candidate that is a
      duplicate or is accepted ends the task; a new one with invalid syntax
      is counted and the next one is tried. A duplicate is not counted. */
  function RetryFold(seen: set<string>, t: Tally, cands: seq<Offer>): Tally
    decreases |cands|
  {
    if cands == [] then t
    else if IsDuplicate(seen, t, cands[0]) then t
    else if !cands[0].admissible then RetryFold(seen, t.(dropped := t.dropped + 1), cands[1..])
    else t.(accepted := t.accepted + [cands[0].rec])
  }

  /** The retry fold over a first candidate and the rest. */
  lemma RetryFoldCons(seen: set<string>, t: Tally, c: Offer, rest: seq<Offer>)
    ensures RetryFold(seen, t, [c] + rest) ==
      if IsDuplicate(seen, t, c) then t
      else if !c.admissible then RetryFold(seen, t.(dropped := t.dropped + 1), rest)
      else t.(accepted := t.accepted + [c.rec])
  {
    assert ([c] + rest)[0] == c && ([c] + rest)[1..] == rest;
  }

  /** A retry task adds at most one record, one of its admissible
      candidates, and leaves the duplicate count alone. */
  lemma {:induction false} RetryFoldAtMostOne(seen: set<string>, t: Tally, cands: seq<Offer>)
    ensures RetryFold(seen, t, cands).duplicates == t.duplicates
    ensures RetryFold(seen, t, cands).dropped >= t.dropped
    ensures RetryFold(seen, t, cands).accepted == t.accepted ||
      exists o :: o in cands && o.admissible && RetryFold(seen, t, cands).accepted == t.accepted + [o.rec]
    decreases |cands|
  {
    if cands != [] && !IsDuplicate(seen, t, cands[0]) {
      if !cands[0].admissible {
        var t' := t.(dropped := t.dropped + 1);
        RetryFoldAtMostOne(seen, t', cands[1..]);
        assert forall o :: o in cands[1..] ==> o in cands;
      } else {
        assert cands[0] in cands;
      }
    }
  }

  /** A retry keeps a sound tally sound. */
  lemma {:induction false} RetryFoldSound(seen: set<string>, t: Tally, cands: seq<Offer>, ok: Record -> bool)
    requires Sound(seen, t, ok)
    requires forall o :: o in cands && o.admissible ==> ok(o.rec)
    ensures Sound(seen, RetryFold(seen, t, cands), ok)
    decreases |cands|
  {
    if cands != [] && !IsDuplicate(seen, t, cands[0]) {
      if !cands[0].admissible {
        assert forall o :: o in cands[1..] ==> o in cands;
        RetryFoldSound(seen, t.(dropped := t.dropped + 1), cands[1..], ok);
      } else {
        assert cands[0] in cands;
        StepSound(seen, t, cands[0], ok);
      }
    }
  }

  /** The tally after the first `n` retry tasks, list `i` of the retry
      reply answering task `i`. */
  function RetryReplyFold(seen: set<string>, t: Tally, tasks: seq<Value>, lists: seq<seq<string>>, cfg: Setup, n: nat): Tally
    requires n <= |lists| <= |tasks|
  {
    if n == 0 then t
    else RetryFold(seen, RetryReplyFold(seen, t, tasks, lists, cfg, n - 1), Candidates(tasks[n - 1], lists[n - 1], cfg, 0))
  }

  /** The retry round adds at most one record per task answered and
      leaves the duplicate count alone. */
  lemma {:induction false} RetryReplyFoldBounds(seen: set<string>, t: Tally, tasks: seq<Value>, lists: seq<seq<string>>,
                                                cfg: Setup, n: nat)
    requires n <= |lists| <= |tasks|
    ensures RetryReplyFold(seen, t, tasks, lists, cfg, n).duplicates == t.duplicates
    ensures t.accepted <= RetryReplyFold(seen, t, tasks, lists, cfg, n).accepted
    ensures |RetryReplyFold(seen, t, tasks, lists, cfg, n).accepted| <= |t.accepted| + n
  {
    if n > 0 {
      RetryReplyFoldBounds(seen, t, tasks, lists, cfg, n - 1);
      RetryFoldAtMostOne(seen, RetryReplyFold(seen, t, tasks, lists, cfg, n - 1), Candidates(tasks[n - 1], lists[n - 1], cfg, 0));
    }
  }

  /** Every admissible candidate of a task is a well-formed implementation. */
  lemma {:induction false} CandidatesWellFormed(s: Value, texts: seq<string>, cfg: Setup, j: nat)
    ensures forall o :: o in Candidates(s, texts, cfg, j) && o.admissible ==> WellFormedIn(cfg)(o.rec)
    decreases |texts| - j
  {
    if j < |texts| {
      CandidatesWellFormed(s, texts, cfg, j + 1);
    }
  }

  lemma {:induction false} RetryReplyFoldSound(seen: set<string>, t: Tally, tasks: seq<Value>, lists: seq<seq<string>>,
                                               cfg: Setup, n: nat)
    requires n <= |lists| <= |tasks|
    requires Sound(seen, t, WellFormedIn(cfg))
    ensures Sound(seen, RetryReplyFold(seen, t, tasks, lists, cfg, n), WellFormedIn(cfg))
  {
    if n > 0 {
      RetryReplyFoldSound(seen, t, tasks, lists, cfg, n - 1);
      CandidatesWellFormed(tasks[n - 1], lists[n - 1], cfg, 0);
      RetryFoldSound(seen, RetryReplyFold(seen, t, tasks, lists, cfg, n - 1), Candidates(tasks[n - 1], lists[n - 1], cfg, 0), WellFormedIn(cfg));
    }
  }

  /** The tally after the first pass over a reply to `batch`: its lists,
      list `i` answering skeleton `i`, up to the first extra one. */
  function FirstFold(seen: set<string>, t: Tally, batch: seq<Value>, lists: seq<seq<string>>, cfg: Setup): Tally {
    var ls := Answered(lists, batch);
    ReplyFold(seen, t, BatchTexts(batch, cfg), ls, |ls|)
  }

  lemma FirstFoldSound(seen: set<string>, t: Tally, batch: seq<Value>, lists: seq<seq<string>>, cfg: Setup)
    requires Sound(seen, t, WellFormedIn(cfg))
    ensures Sound(seen, FirstFold(seen, t, batch, lists, cfg), WellFormedIn(cfg))
  {
    var ls := Answered(lists, batch);
    var f := BatchTexts(batch, cfg);
    var okAdm := (o: Offer) => o.admissible ==> WellFormedIn(cfg)(o.rec);
    forall i, j | 0 <= i < |ls| && 0 <= j < |ls[i]|
      ensures forall o :: o in f(i, ls[i][j]) ==> okAdm(o)
    {
    }
    ReplyOffersAll(f, ls, |ls|, okAdm);
    ReplyFoldSteps(seen, t, f, ls, |ls|);
    StepAllSound(seen, t, ReplyOffers(f, ls, |ls|), WellFormedIn(cfg));
  }

  /** `retry_tasks` after the first pass over a reply to `batch`. */
  function Tasks(batch: seq<Value>, lists: seq<seq<string>>): (r: seq<Value>)
    ensures forall x :: x in r ==> x in batch
  {
    var ls := Answered(lists, batch);
    ReplyTasks(batch, ls, |ls|)
  }

  /** The retry round runs: the first pass raised no `IndexError` and left
      tasks. */
  predicate Retries(batch: seq<Value>, lists: seq<seq<string>>) {
    |lists| <= |batch| && Tasks(batch, lists) != []
  }

  /** The tally after a batch whose prompts were built: the first pass,
      then the retry round when it runs and its reply came. */
  function BatchFold(seen: set<string>, t: Tally, batch: seq<Value>, reply: Reply, retry: Reply, cfg: Setup): Tally {
    if reply.Failed? then t
    else
      var first := FirstFold(seen, t, batch, reply.lists, cfg);
      if !Retries(batch, reply.lists) || retry.Failed? then first
      else
        var tasks := Tasks(batch, reply.lists);
        var rl := Answered(retry.lists, tasks);
        RetryReplyFold(seen, first, tasks, rl, cfg, |rl|)
  }

  /** `total_duplicates` only counts the first pass; the retry round adds
      at most one implementation per task. */
  lemma BatchFoldCounts(seen: set<string>, t: Tally, batch: seq<Value>, reply: Reply, retry: Reply, cfg: Setup)
    requires reply.Replied?
    ensures var first := FirstFold(seen, t, batch, reply.lists, cfg);
      var after := BatchFold(seen, t, batch, reply, retry, cfg);
      after.duplicates == first.duplicates && first.accepted <= after.accepted &&
      |after.accepted| <= |first.accepted| + |Tasks(batch, reply.lists)|
  {
    var first := FirstFold(seen, t, batch, reply.lists, cfg);
    if Retries(batch, reply.lists) && retry.Replied? {
      var tasks := Tasks(batch, reply.lists);
      var rl := Answered(retry.lists, tasks);
      RetryReplyFoldBounds(seen, first, tasks, rl, cfg, |rl|);
    }
  }

  lemma BatchFoldSound(seen: set<string>, t: Tally, batch: seq<Value>, reply: Reply, retry: Reply, cfg: Setup)
    requires Sound(seen, t, WellFormedIn(cfg))
    ensures Sound(seen, BatchFold(seen, t, batch, reply, retry, cfg), WellFormedIn(cfg))
  {
    if reply.Replied? {
      var first := FirstFold(seen, t, batch, reply.lists, cfg);
      FirstFoldSound(seen, t, batch, reply.lists, cfg);
      if Retries(batch, reply.lists) && retry.Replied? {
        var tasks := Tasks(batch, reply.lists);
        var rl := Answered(retry.lists, tasks);
        RetryReplyFoldSound(seen, first, tasks, rl, cfg, |rl|);
      }
    }
  }

  /** The tally at the end of the batch loop, from batch `b` and tally `t`
      on; the loop stops at the first batch whose prompts raise. */
  function RunFold(seen: set<string>, t: Tally, items: seq<Value>, k: nat, cfg: Setup,
                   replies: seq<Reply>, retries: seq<Reply>, nb: nat, b: nat): Tally
    requires k > 0
    decreases nb - b
  {
    if b >= nb || !AllPrompted(Batch(items, k, b), PromptOf(cfg)) then t
    else RunFold(seen, BatchFold(seen, t, Batch(items, k, b), ReplyAt(replies, b), ReplyAt(retries, b), cfg),
                 items, k, cfg, replies, retries, nb, b + 1)
  }

  /** A whole run accepts no uid twice and none that was loaded, and only
      well-formed implementations. */
  lemma {:induction false} RunFoldSound(seen: set<string>, t: Tally, items: seq<Value>, k: nat, cfg: Setup,
                                        replies: seq<Reply>, retries: seq<Reply>, nb: nat, b: nat)
    requires k > 0 && Sound(seen, t, WellFormedIn(cfg))
    ensures Sound(seen, RunFold(seen, t, items, k, cfg, replies, retries, nb, b), WellFormedIn(cfg))
    decreases nb - b
  {
    if b < nb && AllPrompted(Batch(items, k, b), PromptOf(cfg)) {
      BatchFoldSound(seen, t, Batch(items, k, b), ReplyAt(replies, b), ReplyAt(retries, b), cfg);
      RunFoldSound(seen, BatchFold(seen, t, Batch(items, k, b), ReplyAt(replies, b), ReplyAt(retries, b), cfg),
                   items, k, cfg, replies, retries, nb, b + 1);
    }
  }

  /** Every task is an item of the batch, which has its prompt. */
  lemma TasksPrompted(batch: seq<Value>, lists: seq<seq<string>>, cfg: Setup)
    requires AllPrompted(batch, PromptOf(cfg))
    ensures AllPrompted(Tasks(batch, lists), PromptOf(cfg))
  {
    var tasks := Tasks(batch, lists);
    forall j | 0 <= j < |tasks|
      ensures PromptOf(cfg)(tasks[j]).Some?
    {
      assert tasks[j] in batch;
    }
  }

  /** The retry request of a batch: one prompt per task, built like the
      first ones; nothing when the retry round does not run. */
  function RetryPrompts(batch: seq<Value>, reply: Reply, cfg: Setup): (r: seq<seq<string>>)
    ensures |r| <= 1
    ensures r != [] <==> AllPrompted(batch, PromptOf(cfg)) && reply.Replied? && Retries(batch, reply.lists)
    ensures r != [] ==> Prompts(Tasks(batch, reply.lists), PromptOf(cfg)) == Some(r[0]) && |r[0]| == |Tasks(batch, reply.lists)|
  {
    if AllPrompted(batch, PromptOf(cfg)) && reply.Replied? && Retries(batch, reply.lists) then
      TasksPrompted(batch, reply.lists, cfg);
      [Prompts(Tasks(batch, reply.lists), PromptOf(cfg)).value]
    else []
  }

  /** The retry requests of the first `b` batches. */
  function RetriesUpTo(items: seq<Value>, k: nat, cfg: Setup, replies: seq<Reply>, b: nat): seq<seq<string>>
    requires k > 0
  {
    if b == 0 then []
    else RetriesUpTo(items, k, cfg, replies, b - 1) + RetryPrompts(Batch(items, k, b - 1), ReplyAt(replies, b - 1), cfg)
  }

  /** The checks `generate` makes on one completion for skeleton `s`,
      whose skeleton code is `skel`: strip, format, code lines, and for a
      body the implementation and its syntax. */
  method Examine(s: Value, skel: string, text: string, cfg: Setup) returns (v: Verdict, o: Option<Offer>)
    requires s.Dict? && skel == SkeletonCode(s, cfg)
    ensures v == Classify(text)
    ensures o.Some? <==> v.Body?
    ensures o.Some? ==> TextOffers(s, text, cfg) == [o.value]
    ensures o.None? ==> TextOffers(s, text, cfg) == []
  {
    var body := Strip(text);
    if body == [] {
      return Blank, None;
    }
    if !CheckBodyFormat(body) {
      return Retry, None;
    }
    var has := CheckBodyHasCode(body);
    if !has {
      return Retry, None;
    }
    var full := CombineSkeletonAndBody(skel, body);
    var rec := Implementation(cfg.hash(full), GetOr(s.fields, "source", Str("UNKNOWN")), GetOr(s.fields, cfg.problemKey, Str("")),
                              full, GetOr(s.fields, cfg.functionNameKey, Str("")));
    v, o := Body(body), Some(Offer(rec, !cfg.validateSyntax || cfg.parses(full)));
  }

  /** One completion of the first pass: a retry case becomes a task, a
      body goes through the dedup step; a duplicate is counted, and so is a
      new implementation that does not parse. */
  method FirstText(store: Store, s: Value, skel: string, text: string, cfg: Setup,
                   ghost t: Tally, dups: nat, invalid: nat)
    returns (dupCount: nat, invalidCount: nat, task: bool)
    requires s.Dict? && skel == SkeletonCode(s, cfg)
    requires store.Holds(t) && dups == t.duplicates && invalid == t.dropped
    modifies store
    ensures store.Holds(StepAll(store.loaded, t, TextOffers(s, text, cfg)))
    ensures dupCount == StepAll(store.loaded, t, TextOffers(s, text, cfg)).duplicates
    ensures invalidCount == StepAll(store.loaded, t, TextOffers(s, text, cfg)).dropped
    ensures task == Classify(text).Retry?
    ensures store.Flushed() == old(store.Flushed())
  {
    dupCount, invalidCount := dups, invalid;
    var v, o := Examine(s, skel, text, cfg);
    task := v.Retry?;
    if o.Some? {
      StepOne(store.loaded, t, o.value);
      var dup := Admit(store, o.value, t);
      if dup {
        dupCount := dupCount + 1;
      } else if !o.value.admissible {
        invalidCount := invalidCount + 1;
      }
    }
  }

  /** The first-pass loop over the completions for skeleton `s`. */
  method ProcessTexts(store: Store, i: nat, texts: seq<string>, s: Value, cfg: Setup,
                      ghost f: (nat, string) -> seq<Offer>, ghost t: Tally, dups: nat, invalid: nat, tasks: seq<Value>)
    returns (dupCount: nat, invalidCount: nat, tasksAfter: seq<Value>)
    requires Texts(s, cfg).Some?
    requires forall text {:trigger f(i, text), TextOffers(s, text, cfg)} :: f(i, text) == TextOffers(s, text, cfg)
    requires store.Holds(t) && dups == t.duplicates && invalid == t.dropped
    modifies store
    ensures store.Holds(ListFold(store.loaded, t, f, i, texts, |texts|))
    ensures dupCount == ListFold(store.loaded, t, f, i, texts, |texts|).duplicates
    ensures invalidCount == ListFold(store.loaded, t, f, i, texts, |texts|).dropped
    ensures tasksAfter == tasks + ListTasks(s, texts, |texts|)
    ensures store.Flushed() == old(store.Flushed())
  {
    dupCount, invalidCount := dups, invalid;
    ghost var f0 := store.Flushed();
    var skel := Texts(s, cfg).value.1;
    var added: seq<Value> := [];
    for j := 0 to |texts|
      invariant store.Holds(ListFold(store.loaded, t, f, i, texts, j))
      invariant dupCount == ListFold(store.loaded, t, f, i, texts, j).duplicates
      invariant invalidCount == ListFold(store.loaded, t, f, i, texts, j).dropped
      invariant added == ListTasks(s, texts, j)
      invariant store.Flushed() == f0
    {
      var task;
      dupCount, invalidCount, task := TextStep(store, i, texts, j, s, skel, cfg, f, t, dupCount, invalidCount);
      if task {
        added := added + [s];
      }
    }
    tasksAfter := tasks + added;
  }

  /** Completion `j` of list `i` in the first pass. */
  method TextStep(store: Store, i: nat, texts: seq<string>, j: nat, s: Value, skel: string, cfg: Setup,
                  ghost f: (nat, string) -> seq<Offer>, ghost t: Tally, dups: nat, invalid: nat)
    returns (dupCount: nat, invalidCount: nat, task: bool)
    requires j < |texts| && s.Dict? && skel == SkeletonCode(s, cfg)
    requires f(i, texts[j]) == TextOffers(s, texts[j], cfg)
    requires store.Holds(ListFold(store.loaded, t, f, i, texts, j))
    requires dups == ListFold(store.loaded, t, f, i, texts, j).duplicates
    requires invalid == ListFold(store.loaded, t, f, i, texts, j).dropped
    modifies store
    ensures store.Holds(ListFold(store.loaded, t, f, i, texts, j + 1))
    ensures dupCount == ListFold(store.loaded, t, f, i, texts, j + 1).duplicates
    ensures invalidCount == ListFold(store.loaded, t, f, i, texts, j + 1).dropped
    ensures task == Classify(texts[j]).Retry?
    ensures store.Flushed() == old(store.Flushed())
  {
    dupCount, invalidCount, task :=
      FirstText(store, s, skel, texts[j], cfg, ListFold(store.loaded, t, f, i, texts, j), dups, invalid);
  }

  /** The first-pass loop over the lists of one reply, list `i` answering
      skeleton `i`. */
  method ProcessReply(store: Store, lists: seq<seq<string>>, batch: seq<Value>, cfg: Setup,
                      ghost f: (nat, string) -> seq<Offer>, ghost t: Tally, dups: nat, invalid: nat)
    returns (dupCount: nat, invalidCount: nat, tasks: seq<Value>)
    requires |lists| <= |batch| && AllPrompted(batch, PromptOf(cfg))
    requires forall i: nat, text {:trigger f(i, text), TextOffers(batch[i], text, cfg)} ::
      i < |batch| ==> f(i, text) == TextOffers(batch[i], text, cfg)
    requires store.Holds(t) && dups == t.duplicates && invalid == t.dropped
    modifies store
    ensures store.Holds(ReplyFold(store.loaded, t, f, lists, |lists|))
    ensures dupCount == ReplyFold(store.loaded, t, f, lists, |lists|).duplicates
    ensures invalidCount == ReplyFold(store.loaded, t, f, lists, |lists|).dropped
    ensures tasks == ReplyTasks(batch, lists, |lists|)
    ensures store.Flushed() == old(store.Flushed())
  {
    dupCount, invalidCount, tasks := dups, invalid, [];
    ghost var cur := t;
    ghost var f0 := store.Flushed();
    for i := 0 to |lists|
      invariant store.Holds(cur) && dupCount == cur.duplicates && invalidCount == cur.dropped
      invariant cur == ReplyFold(store.loaded, t, f, lists, i)
      invariant tasks == ReplyTasks(batch, lists, i)
      invariant store.Flushed() == f0
    {
      assert PromptOf(cfg)(batch[i]).Some?;
      dupCount, invalidCount, tasks := ProcessTexts(store, i, lists[i], batch[i], cfg, f, cur, dupCount, invalidCount, tasks);
      cur := ListFold(store.loaded, cur, f, i, lists[i], |lists[i]|);
    }
  }

  /** The retry loop over one task's completions: the first well-formed
      body that is a duplicate or is buffered ends it (`break`); a new one
      with invalid syntax is counted and the next is tried (`continue`). */
  method RetryTexts(store: Store, s: Value, skel: string, texts: seq<string>, cfg: Setup, ghost t: Tally, invalid: nat)
    returns (invalidCount: nat)
    requires s.Dict? && skel == SkeletonCode(s, cfg)
    requires store.Holds(t) && invalid == t.dropped
    modifies store
    ensures store.Holds(RetryFold(store.loaded, t, Candidates(s, texts, cfg, 0)))
    ensures invalidCount == RetryFold(store.loaded, t, Candidates(s, texts, cfg, 0)).dropped
    ensures store.Flushed() == old(store.Flushed())
  {
    invalidCount := invalid;
    ghost var final := RetryFold(store.loaded, t, Candidates(s, texts, cfg, 0));
    ghost var cur := t;
    ghost var f0 := store.Flushed();
    var j := 0;
    while j < |texts|
      invariant 0 <= j <= |texts|
      invariant store.Holds(cur) && invalidCount == cur.dropped && store.Flushed() == f0
      invariant RetryFold(store.loaded, cur, Candidates(s, texts, cfg, j)) == final
    {
      var stop;
      stop, invalidCount, cur := RetryText(store, s, skel, texts, j, cfg, cur, invalidCount);
      if stop {
        return;
      }
      j := j + 1;
    }
  }

  /** Completion `j` of a retry task: `stop` says that it ended the task
      (a duplicate, or a record buffered). */
  method RetryText(store: Store, s: Value, skel: string, texts: seq<string>, j: nat, cfg: Setup,
                   ghost cur: Tally, invalid: nat)
    returns (stop: bool, invalidCount: nat, ghost next: Tally)
    requires j < |texts| && s.Dict? && skel == SkeletonCode(s, cfg)
    requires store.Holds(cur) && invalid == cur.dropped
    modifies store
    ensures store.Holds(next) && invalidCount == next.dropped && store.Flushed() == old(store.Flushed())
    ensures stop ==> next == RetryFold(store.loaded, cur, Candidates(s, texts, cfg, j))
    ensures !stop ==>
      RetryFold(store.loaded, next, Candidates(s, texts, cfg, j + 1)) == RetryFold(store.loaded, cur, Candidates(s, texts, cfg, j))
  {
    var v, o := Examine(s, skel, texts[j], cfg);
    ghost var rest := Candidates(s, texts, cfg, j + 1);
    invalidCount, next, stop := invalid, cur, false;
    if o.Some? {
      var c := o.value;
      assert Candidates(s, texts, cfg, j) == [c] + rest;
      RetryFoldCons(store.loaded, cur, c, rest);
      var dup := Admit(store, c, cur);
      if !dup && !c.admissible {
        invalidCount := invalidCount + 1;
        next := cur.(dropped := cur.dropped + 1);
      } else {
        if !dup {
          next := Step(store.loaded, cur, c);
        }
        stop := true;
      }
    } else {
      assert Candidates(s, texts, cfg, j) == rest;
    }
  }

  /** A task whose prompt was built is a record whose problem and skeleton
      texts are strings. */
  lemma PromptedTask(tasks: seq<Value>, i: nat, cfg: Setup)
    requires i < |tasks| && AllPrompted(tasks, PromptOf(cfg))
    ensures tasks[i].Dict? && Texts(tasks[i], cfg).Some?
    ensures Texts(tasks[i], cfg).value.1 == SkeletonCode(tasks[i], cfg)
  {
    assert PromptOf(cfg)(tasks[i]).Some?;
  }

  /** The retry loop over the lists of the retry reply, list `i` answering
      task `i`; each task answered has its `attempts` raised to 1. */
  method RetryReply(store: Store, tasks: seq<Value>, lists: seq<seq<string>>, cfg: Setup, ghost t: Tally, invalid: nat)
    returns (invalidCount: nat, attempts: seq<nat>)
    requires |lists| <= |tasks| && AllPrompted(tasks, PromptOf(cfg))
    requires store.Holds(t) && invalid == t.dropped
    modifies store
    ensures store.Holds(RetryReplyFold(store.loaded, t, tasks, lists, cfg, |lists|))
    ensures invalidCount == RetryReplyFold(store.loaded, t, tasks, lists, cfg, |lists|).dropped
    ensures attempts == Attempts(|tasks|, |lists|)
    ensures store.Flushed() == old(store.Flushed())
  {
    invalidCount := invalid;
    attempts := Attempts(|tasks|, 0);
    ghost var f0 := store.Flushed();
    for i := 0 to |lists|
      invariant store.Holds(RetryReplyFold(store.loaded, t, tasks, lists, cfg, i))
      invariant invalidCount == RetryReplyFold(store.loaded, t, tasks, lists, cfg, i).dropped
      invariant store.Flushed() == f0 && attempts == Attempts(|tasks|, i)
    {
      AttemptsStep(|tasks|, i);
      attempts := attempts[i := attempts[i] + 1];
      invalidCount := RetryTask(store, tasks, lists, i, cfg, t, invalidCount);
    }
  }

  /** Task `i` of the retry loop, answered by list `i` of the retry reply. */
  method RetryTask(store: Store, tasks: seq<Value>, lists: seq<seq<string>>, i: nat, cfg: Setup,
                   ghost t: Tally, invalid: nat)
    returns (invalidCount: nat)
    requires i < |lists| <= |tasks| && AllPrompted(tasks, PromptOf(cfg))
    requires store.Holds(RetryReplyFold(store.loaded, t, tasks, lists, cfg, i))
    requires invalid == RetryReplyFold(store.loaded, t, tasks, lists, cfg, i).dropped
    modifies store
    ensures store.Holds(RetryReplyFold(store.loaded, t, tasks, lists, cfg, i + 1))
    ensures invalidCount == RetryReplyFold(store.loaded, t, tasks, lists, cfg, i + 1).dropped
    ensures store.Flushed() == old(store.Flushed())
  {
    var task := tasks[i];
    PromptedTask(tasks, i, cfg);
    var skel := Texts(task, cfg).value.1;
    invalidCount := RetryTexts(store, task, skel, lists[i], cfg, RetryReplyFold(store.loaded, t, tasks, lists, cfg, i), invalid);
  }

  /** One answered batch inside its `try`: the first pass; then, unless an
      extra list raised first, the retry round when tasks are left and the
      flush once the buffer holds `batch_write_size` records. A failed
      retry request is caught inside the batch. */
  method HandleReply(store: Store, lists: seq<seq<string>>, retry: Reply, batch: seq<Value>, cfg: Setup,
                     ghost t: Tally, dups: nat, invalid: nat, batchWriteSize: int, fault: FlushFault)
    returns (dupCount: nat, invalidCount: nat, retryPrompts: seq<seq<string>>)
    requires AllPrompted(batch, PromptOf(cfg))
    requires store.Holds(t) && dups == t.duplicates && invalid == t.dropped
    modifies store
    ensures store.Holds(BatchFold(store.loaded, t, batch, Replied(lists), retry, cfg))
    ensures dupCount == BatchFold(store.loaded, t, batch, Replied(lists), retry, cfg).duplicates
    ensures invalidCount == BatchFold(store.loaded, t, batch, Replied(lists), retry, cfg).dropped
    ensures retryPrompts == RetryPrompts(batch, Replied(lists), cfg)
    ensures fault == NoFault && old(store.outputLog) == old(store.allResults) ==> store.outputLog == store.allResults
  {
    var ls := Answered(lists, batch);
    var tasks;
    dupCount, invalidCount, tasks := ProcessReply(store, ls, batch, cfg, BatchTexts(batch, cfg), t, dups, invalid);
    ghost var first := FirstFold(store.loaded, t, batch, lists, cfg);
    retryPrompts := [];
    if |lists| > |batch| {
      return;
    }
    if tasks != [] {
      TasksPrompted(batch, lists, cfg);
      retryPrompts := [Prompts(tasks, PromptOf(cfg)).value];
      if retry.Replied? {
        var rl := Answered(retry.lists, tasks);
        var attempts;
        invalidCount, attempts := RetryReply(store, tasks, rl, cfg, first, invalidCount);
        RetryReplyFoldBounds(store.loaded, first, tasks, rl, cfg, |rl|);
      }
    }
    if |store.pendingWrite| >= batchWriteSize {
      store.Flush(fault);
    }
  }

  /** Batch `b` of the loop: build its prompts (which may raise) and, when
      the reply came, handle it. */
  method SendBatch(store: Store, items: seq<Value>, k: nat, b: nat, cfg: Setup,
                   replies: seq<Reply>, retries: seq<Reply>, faults: seq<FlushFault>, batchWriteSize: int,
                   ghost t: Tally, dups: nat, invalid: nat)
    returns (prompts: Option<seq<string>>, retryPrompts: seq<seq<string>>, dupCount: nat, invalidCount: nat)
    requires k > 0
    requires store.Holds(t) && dups == t.duplicates && invalid == t.dropped
    modifies store
    ensures prompts == Prompts(Batch(items, k, b), PromptOf(cfg))
    ensures prompts.Some? ==>
      var after := BatchFold(store.loaded, t, Batch(items, k, b), ReplyAt(replies, b), ReplyAt(retries, b), cfg);
      store.Holds(after) && dupCount == after.duplicates && invalidCount == after.dropped
    ensures prompts.None? ==> store.Holds(t) && dupCount == dups && invalidCount == invalid
    ensures retryPrompts == RetryPrompts(Batch(items, k, b), ReplyAt(replies, b), cfg)
    ensures FaultAt(faults, b) == NoFault && old(store.outputLog) == old(store.allResults) ==> store.outputLog == store.allResults
  {
    var batch := Batch(items, k, b);
    prompts := Prompts(batch, PromptOf(cfg));
    dupCount, invalidCount, retryPrompts := dups, invalid, [];
    if prompts.Some? {
      var reply := ReplyAt(replies, b);
      if reply.Replied? {
        dupCount, invalidCount, retryPrompts :=
          HandleReply(store, reply.lists, ReplyAt(retries, b), batch, cfg, t, dups, invalid, batchWriteSize, FaultAt(faults, b));
      }
    }
  }

  /** What the batch loop has sent when it reaches batch `b`: the prompt
      lists and retry requests of the batches before it, and whether the
      run raises is still decided by the batches from `b` on. */
  predicate Sent(items: seq<Value>, k: nat, nb: nat, cfg: Setup, replies: seq<Reply>,
                 requested: seq<seq<string>>, retried: seq<seq<string>>, b: nat)
    requires k > 0
  {
    Prompted(requested, items, k, PromptOf(cfg), b) && retried == RetriesUpTo(items, k, cfg, replies, b) &&
    Raises(items, k, PromptOf(cfg), nb, 0) == Raises(items, k, PromptOf(cfg), nb, b)
  }

  /** The batch loop is on track after `b` batches: the rest of the run fold
      from tally `cur` reaches `final`, and the prompts so far were sent. */
  predicate OnTrack(seen: set<string>, cur: Tally, final: Tally, items: seq<Value>, k: nat, nb: nat, cfg: Setup,
                    replies: seq<Reply>, retries: seq<Reply>, requested: seq<seq<string>>, retried: seq<seq<string>>, b: nat)
    requires k > 0
  {
    RunFold(seen, cur, items, k, cfg, replies, retries, nb, b) == final &&
    Sent(items, k, nb, cfg, replies, requested, retried, b)
  }

  /** One turn of the batch loop: batch `b` is sent and handled, and the
      loop's bookkeeping moves on to batch `b + 1`; or its prompts raise
      and the loop stops with the tally it has. */
  method Round(store: Store, items: seq<Value>, k: nat, nb: nat, b: nat, cfg: Setup, batchWriteSize: int,
               replies: seq<Reply>, retries: seq<Reply>, faults: seq<FlushFault>,
               ghost cur: Tally, ghost final: Tally, dups: nat, invalid: nat,
               requested: seq<seq<string>>, retried: seq<seq<string>>)
    returns (raised: bool, dupCount: nat, invalidCount: nat,
             requestedAfter: seq<seq<string>>, retriedAfter: seq<seq<string>>, ghost next: Tally)
    requires k > 0 && b < nb
    requires store.Holds(cur) && dups == cur.duplicates && invalid == cur.dropped
    requires OnTrack(store.loaded, cur, final, items, k, nb, cfg, replies, retries, requested, retried, b)
    modifies store
    ensures raised ==> next == final && Raises(items, k, PromptOf(cfg), nb, 0)
    ensures store.Holds(next) && dupCount == next.duplicates && invalidCount == next.dropped
    ensures !raised ==> OnTrack(store.loaded, next, final, items, k, nb, cfg, replies, retries, requestedAfter, retriedAfter, b + 1)
    ensures FaultAt(faults, b) == NoFault && old(store.outputLog) == old(store.allResults) ==> store.outputLog == store.allResults
  {
    var prompts, again;
    prompts, again, dupCount, invalidCount :=
      SendBatch(store, items, k, b, cfg, replies, retries, faults, batchWriteSize, cur, dups, invalid);
    RaisesStep(items, k, PromptOf(cfg), nb, b);
    if prompts.None? {
      return true, dupCount, invalidCount, requested, retried, cur;
    }
    PromptedStep(items, k, PromptOf(cfg), b, requested, prompts.value);
    raised, requestedAfter, retriedAfter := false, requested + [prompts.value], retried + again;
    next := BatchFold(store.loaded, cur, Batch(items, k, b), ReplyAt(replies, b), ReplyAt(retries, b), cfg);
  }

  /** The batch loop of `generate` over the truncated skeleton list, on a
      store that has seen nothing yet. `requested` holds the prompt list of
      every batch sent, `retried` that of every retry request. */
  method RunBatches(store: Store, items: seq<Value>, k: nat, cfg: Setup, batchWriteSize: int,
                    replies: seq<Reply>, retries: seq<Reply>, faults: seq<FlushFault>)
    returns (raised: bool, totalDuplicates: nat, totalInvalid: nat,
             requested: seq<seq<string>>, retried: seq<seq<string>>)
    requires k > 0 && store.Holds(Empty) && store.outputLog == []
    modifies store
    ensures var final := RunFold(store.loaded, Empty, items, k, cfg, replies, retries, CeilDiv(|items|, k), 0);
      store.Holds(final) && totalDuplicates == final.duplicates && totalInvalid == final.dropped
    ensures raised == Raises(items, k, PromptOf(cfg), CeilDiv(|items|, k), 0)
    ensures !raised ==> Sent(items, k, CeilDiv(|items|, k), cfg, replies, requested, retried, CeilDiv(|items|, k))
    ensures NoFaults(faults) ==> store.outputLog == store.allResults
  {
    var nb := CeilDiv(|items|, k);
    ghost var final := RunFold(store.loaded, Empty, items, k, cfg, replies, retries, nb, 0);
    ghost var cur := Empty;
    raised, totalDuplicates, totalInvalid, requested, retried := false, 0, 0, [], [];
    var b := 0;
    OnTrackStart(store.loaded, items, k, nb, cfg, replies, retries);
    while b < nb
      invariant b <= nb && store.Holds(cur) && totalDuplicates == cur.duplicates && totalInvalid == cur.dropped
      invariant OnTrack(store.loaded, cur, final, items, k, nb, cfg, replies, retries, requested, retried, b)
      invariant NoFaults(faults) ==> store.outputLog == store.allResults
    {
      NoFaultsAt(faults, b);
      raised, totalDuplicates, totalInvalid, requested, retried, cur :=
        Round(store, items, k, nb, b, cfg, batchWriteSize, replies, retries, faults,
              cur, final, totalDuplicates, totalInvalid, requested, retried);
      if raised {
        break;
      }
      b := b + 1;
    }
    if !raised {
      RunFoldDone(store.loaded, cur, items, k, cfg, replies, retries, nb);
    }
  }

  /** Before the first batch the loop is on track with nothing sent. */
  lemma OnTrackStart(seen: set<string>, items: seq<Value>, k: nat, nb: nat, cfg: Setup,
                     replies: seq<Reply>, retries: seq<Reply>)
    requires k > 0
    ensures OnTrack(seen, Empty, RunFold(seen, Empty, items, k, cfg, replies, retries, nb, 0),
                    items, k, nb, cfg, replies, retries, [], [], 0)
  {
    assert BatchesUpTo(items, k, 0) == [];
  }

  /** Past the last batch the fold leaves the tally alone and nothing raises. */
  lemma RunFoldDone(seen: set<string>, t: Tally, items: seq<Value>, k: nat, cfg: Setup,
                    replies: seq<Reply>, retries: seq<Reply>, nb: nat)
    requires k > 0
    ensures RunFold(seen, t, items, k, cfg, replies, retries, nb, nb) == t
    ensures !Raises(items, k, PromptOf(cfg), nb, nb)
  {
  }

  /** The part of `generate` after the early returns: batches over the
      non-empty skeleton list `items`, then the final flush. */
  method RunItems(items: seq<Value>, maxConcurrent: nat, cfg: Setup, batchWriteSize: int, loaded: set<string>,
                  replies: seq<Reply>, retries: seq<Reply>, faults: seq<FlushFault>, finalFault: FlushFault)
    returns (raised: bool, results: seq<Record>, outputLog: seq<Record>, hashLog: seq<string>,
             totalDuplicates: nat, totalInvalid: nat, requested: seq<seq<string>>, retried: seq<seq<string>>)
    requires maxConcurrent > 0
    ensures Raises(items, maxConcurrent, PromptOf(cfg), CeilDiv(|items|, maxConcurrent), 0) ==> raised
    ensures raised ==> Raises(items, maxConcurrent, PromptOf(cfg), CeilDiv(|items|, maxConcurrent), 0) || finalFault != NoFault
    ensures !raised ==>
      var final := RunFold(loaded, Empty, items, maxConcurrent, cfg, replies, retries, CeilDiv(|items|, maxConcurrent), 0);
      results == final.accepted && totalDuplicates == final.duplicates && totalInvalid == final.dropped &&
      AllPrompted(items, PromptOf(cfg)) && Concat(requested) == Prompts(items, PromptOf(cfg)).value &&
      retried == RetriesUpTo(items, maxConcurrent, cfg, replies, CeilDiv(|items|, maxConcurrent))
    ensures !raised ==> forall r :: r in results ==> WellFormed(r, cfg)
    ensures !raised ==> hashLog == Uids(results) && IsSubseq(results, outputLog)
    ensures !raised && NoFaults(faults) ==> outputLog == results
    ensures Distinct(hashLog) && forall i :: 0 <= i < |hashLog| ==> hashLog[i] !in loaded
    ensures HashesRecorded(hashLog, outputLog)
  {
    var store := new Store(loaded);
    raised, totalDuplicates, totalInvalid, requested, retried :=
      RunBatches(store, items, maxConcurrent, cfg, batchWriteSize, replies, retries, faults);
    ghost var final := RunFold(loaded, Empty, items, maxConcurrent, cfg, replies, retries, CeilDiv(|items|, maxConcurrent), 0);
    RunFoldSound(loaded, Empty, items, maxConcurrent, cfg, replies, retries, CeilDiv(|items|, maxConcurrent), 0);
    if !raised {
      PromptedAll(requested, items, maxConcurrent, PromptOf(cfg));
      var ok := store.FinalFlush(finalFault);
      raised := !ok;
    }
    if raised {
      UniquePrefix(loaded, store.allResults, store.pendingWrite);
    }
    results := store.allResults;
    outputLog := store.outputLog;
    hashLog := store.hashLog;
    HashesHaveRecords(results, outputLog, hashLog);
    SoundMembers(loaded, final, WellFormedIn(cfg));
  }

  /** `generate(input_file, output_dir, prompt_template, num_samples, ...,
      batch_write_size, problem_key, skeleton_key, function_name_key,
      skip_invalid, validate_syntax)`. The input file is given as its
      `lines`; `max_concurrent` is the client's concurrency limit, and a
      limit of 0 makes the batch count raise `ZeroDivisionError`. `raised`
      says that `generate` raised: while loading, while building the
      prompts of a batch, or in the final flush. */
  method Generate(lines: seq<string>, parse: string -> Option<Value>, cfg: Setup, skipInvalid: bool,
                  numSamples: Option<int>, maxConcurrent: nat, batchWriteSize: int, loaded: set<string>,
                  replies: seq<Reply>, retries: seq<Reply>, faults: seq<FlushFault>, finalFault: FlushFault)
    returns (raised: bool, results: seq<Record>, outputLog: seq<Record>, hashLog: seq<string>,
             totalDuplicates: nat, totalInvalid: nat, requested: seq<seq<string>>, retried: seq<seq<string>>)
    ensures var input := Input(lines, parse, cfg.problemKey, cfg.skeletonKey, skipInvalid, numSamples);
      input.None? ==> raised && outputLog == [] && hashLog == [] && requested == []
    ensures var input := Input(lines, parse, cfg.problemKey, cfg.skeletonKey, skipInvalid, numSamples);
      input == Some([]) ==> !raised && results == [] && outputLog == [] && hashLog == [] && requested == []
    ensures var input := Input(lines, parse, cfg.problemKey, cfg.skeletonKey, skipInvalid, numSamples);
      input.Some? && input.value != [] && maxConcurrent == 0 ==> raised && outputLog == [] && hashLog == [] && requested == []
    ensures var input := Input(lines, parse, cfg.problemKey, cfg.skeletonKey, skipInvalid, numSamples);
      input.Some? && maxConcurrent > 0 ==>
      var items := input.value;
      (Raises(items, maxConcurrent, PromptOf(cfg), CeilDiv(|items|, maxConcurrent), 0) ==> raised) &&
      (raised ==> Raises(items, maxConcurrent, PromptOf(cfg), CeilDiv(|items|, maxConcurrent), 0) || finalFault != NoFault)
    ensures var input := Input(lines, parse, cfg.problemKey, cfg.skeletonKey, skipInvalid, numSamples);
      !raised && input.Some? && input.value != [] ==>
      var items := input.value;
      maxConcurrent > 0 &&
      var final := RunFold(loaded, Empty, items, maxConcurrent, cfg, replies, retries, CeilDiv(|items|, maxConcurrent), 0);
      results == final.accepted && totalDuplicates == final.duplicates && totalInvalid == final.dropped &&
      AllPrompted(items, PromptOf(cfg)) && Concat(requested) == Prompts(items, PromptOf(cfg)).value
    ensures !raised ==> forall r :: r in results ==> WellFormed(r, cfg)
    ensures !raised ==> hashLog == Uids(results) && IsSubseq(results, outputLog)
    ensures !raised && NoFaults(faults) ==> outputLog == results
    ensures Distinct(hashLog) && forall i :: 0 <= i < |hashLog| ==> hashLog[i] !in loaded
    ensures HashesRecorded(hashLog, outputLog)
  {
    var skeletons := LoadSkeletons(lines, parse, cfg.problemKey, cfg.skeletonKey, ValidKey, skipInvalid);
    if skeletons.None? {
      return true, [], [], [], 0, 0, [], [];
    }
    var items := Take(skeletons.value, numSamples);
    if items == [] {
      return false, [], [], [], 0, 0, [], [];
    }
    if maxConcurrent == 0 {
      return true, [], [], [], 0, 0, [], [];
    }
    raised, results, outputLog, hashLog, totalDuplicates, totalInvalid, requested, retried :=
      RunItems(items, maxConcurrent, cfg, batchWriteSize, loaded, replies, retries, faults, finalFault);
  }
}
