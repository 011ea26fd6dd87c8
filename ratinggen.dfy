/** evoselfcode/datagen/preprocess/ratinggen.py: the fourth generator. For
    every implementation not rated yet it asks the completion endpoint for
    a rating, parses the five scores and the summary, and (optionally)
    sends the ratings whose scores are out of range through one retry
    round. Unlike the other generators it does not check uids when
    buffering: the hash file only filters the input. */
module RatingGen {
  import opened Text
  import opened Json
  import opened Sequences
  import opened Engine
  import RatingAnalysis

  // ---------------------------------------------------------------------
  // Loading

  /** The input keys `_load_implementations` reads. */
  datatype Keys = Keys(problemKey: string, codeKey: string, functionNameKey: string, uidKey: string, sourceKey: string)

  /** An implementation as `_load_implementations` stores it: a dict with
      the five fixed keys. */
  predicate IsImpl(v: Value) {
    v.Dict? && "problem_text" in v.fields && "code" in v.fields && "function_name" in v.fields &&
    "uid" in v.fields && "source" in v.fields
  }

  /** The dict built from one parsed line; `None` for the `AttributeError`
      raised when the line is not a JSON object. */
  function ImplOf(data: Value, keys: Keys): (r: Option<Value>)
    ensures r.Some? <==> data.Dict?
    ensures r.Some? ==> IsImpl(r.value)
  {
    if !data.Dict? then None
    else Some(Dict(map["problem_text" := GetOr(data.fields, keys.problemKey, Str("")),
                       "code" := GetOr(data.fields, keys.codeKey, Str("")),
                       "function_name" := GetOr(data.fields, keys.functionNameKey, Str("")),
                       "uid" := GetOr(data.fields, keys.uidKey, Str("")),
                       "source" := GetOr(data.fields, keys.sourceKey, Str("UNKNOWN"))]))
  }

  /** One non-blank line: `json.loads` (not guarded, so a malformed line
      raises), then the dict. */
  function LineImpl(line: string, parse: string -> Option<Value>, keys: Keys): Option<Value> {
    match parse(line)
    case None => None
    case Some(data) => ImplOf(data, keys)
  }

  /** The non-blank lines of a file, in order. */
  function NonBlank(lines: seq<string>): (r: seq<string>)
    ensures |r| <= |lines|
  {
    if lines == [] then []
    else NonBlank(lines[..|lines| - 1]) + if IsBlank(lines[|lines| - 1]) then [] else [lines[|lines| - 1]]
  }

  /** What `_load_implementations` returns for an existing file of `lines`;
      `None` when it raises. */
  function Implementations(lines: seq<string>, parse: string -> Option<Value>, keys: Keys): Option<seq<Value>> {
    if lines == [] then Some([])
    else
      match Implementations(lines[..|lines| - 1], parse, keys)
      case None => None
      case Some(prev) =>
        var line := lines[|lines| - 1];
        if IsBlank(line) then Some(prev)
        else
          match LineImpl(line, parse, keys)
          case None => None
          case Some(impl) => Some(prev + [impl])
  }

  /** Loading succeeds exactly when every non-blank line is a JSON object,
      and then yields one implementation per non-blank line, in order. */
  lemma {:induction false} ImplementationsSpec(lines: seq<string>, parse: string -> Option<Value>, keys: Keys)
    ensures Implementations(lines, parse, keys).Some? <==>
      forall j :: 0 <= j < |NonBlank(lines)| ==> LineImpl(NonBlank(lines)[j], parse, keys).Some?
    ensures Implementations(lines, parse, keys).Some? ==>
      var impls := Implementations(lines, parse, keys).value;
      |impls| == |NonBlank(lines)| &&
      forall j :: 0 <= j < |impls| ==> Some(impls[j]) == LineImpl(NonBlank(lines)[j], parse, keys)
    decreases |lines|
  {
    if lines != [] {
      var init := lines[..|lines| - 1];
      var line := lines[|lines| - 1];
      ImplementationsSpec(init, parse, keys);
      var nb := NonBlank(init);
      if !IsBlank(line) {
        assert NonBlank(lines) == nb + [line];
        assert forall j :: 0 <= j < |nb| ==> NonBlank(lines)[j] == nb[j];
        if Implementations(init, parse, keys).None? {
          var j :| 0 <= j < |nb| && LineImpl(nb[j], parse, keys).None?;
          assert LineImpl(NonBlank(lines)[j], parse, keys).None?;
        } else if LineImpl(line, parse, keys).None? {
          assert LineImpl(NonBlank(lines)[|nb|], parse, keys).None?;
        }
      } else {
        assert NonBlank(lines) == nb;
      }
    }
  }

  /** Every loaded implementation is a dict with the five keys. */
  lemma {:induction false} ImplementationsAreImpls(lines: seq<string>, parse: string -> Option<Value>, keys: Keys)
    requires Implementations(lines, parse, keys).Some?
    ensures forall v :: v in Implementations(lines, parse, keys).value ==> IsImpl(v)
    decreases |lines|
  {
    if lines != [] {
      ImplementationsAreImpls(lines[..|lines| - 1], parse, keys);
    }
  }

  /** `_load_implementations(input_file, ...)`: `file` is the file's lines,
      `None` when it does not exist (then nothing is loaded). */
  method LoadImplementations(file: Option<seq<string>>, parse: string -> Option<Value>, keys: Keys)
    returns (impls: Option<seq<Value>>)
    ensures file.None? ==> impls == Some([])
    ensures file.Some? ==> impls == Implementations(file.value, parse, keys)
  {
    if file.None? {
      return Some([]);
    }
    var lines := file.value;
    var loaded: seq<Value> := [];
    for n := 0 to |lines|
      invariant Implementations(lines[..n], parse, keys) == Some(loaded)
    {
      assert lines[..n + 1][..n] == lines[..n];
      var line := lines[n];
      StripEmptyIffBlank(line);
      if Strip(line) != [] {
        var data := parse(line);
        if data.None? || !data.value.Dict? {
          ImplementationsRaise(lines, parse, keys, n + 1);
          return None;
        }
        loaded := loaded + [ImplOf(data.value, keys).value];
      }
    }
    assert lines[..|lines|] == lines;
    impls := Some(loaded);
  }

  /** Once a prefix of the file raises, the whole file does. */
  lemma {:induction false} ImplementationsRaise(lines: seq<string>, parse: string -> Option<Value>, keys: Keys, n: nat)
    requires n <= |lines| && Implementations(lines[..n], parse, keys).None?
    ensures Implementations(lines, parse, keys).None?
    decreases |lines| - n
  {
    if n < |lines| {
      assert lines[..n + 1][..n] == lines[..n];
      ImplementationsRaise(lines, parse, keys, n + 1);
    } else {
      assert lines[..n] == lines;
    }
  }

  /** `_load_existing_hashes`: the stripped non-blank lines of the hash
      file (a missing file reads as no lines). */
  function ExistingHashes(hashLines: seq<string>): (r: set<string>)
    ensures "" !in r
    ensures forall u :: u in r <==> exists l :: l in hashLines && !IsBlank(l) && u == Strip(l)
  {
    forall l | l in hashLines
      ensures Strip(l) == [] <==> IsBlank(l)
    {
      StripEmptyIffBlank(l);
    }
    set l | l in hashLines && !IsBlank(l) :: Strip(l)
  }

  // ---------------------------------------------------------------------
  // Already-rated filtering

  /** The `uid` field of an implementation. */
  function UidOf(impl: Value): Value {
    if impl.Dict? && "uid" in impl.fields then impl.fields["uid"] else Null
  }

  /** `impl['uid'] in existing_hashes`: only a string can be in a set of strings. */
  predicate Rated(impl: Value, existing: set<string>) {
    UidOf(impl).Str? && UidOf(impl).s in existing
  }

  /** A list or dict uid makes the membership test raise `TypeError`. */
  predicate Unhashable(v: Value) {
    v.List? || v.Dict?
  }

  /** `[impl for impl in implementations if impl['uid'] not in existing_hashes]`;
      `None` when the test raises. */
  function Unrated(impls: seq<Value>, existing: set<string>): Option<seq<Value>> {
    if impls == [] then Some([])
    else
      match Unrated(impls[..|impls| - 1], existing)
      case None => None
      case Some(prev) =>
        var impl := impls[|impls| - 1];
        if Unhashable(UidOf(impl)) then None
        else Some(if Rated(impl, existing) then prev else prev + [impl])
  }

  /** The filter raises exactly when some uid is a list or dict; otherwise
      it keeps, in order, exactly the implementations not rated yet. */
  lemma {:induction false} UnratedSpec(impls: seq<Value>, existing: set<string>)
    ensures Unrated(impls, existing).None? <==> exists v :: v in impls && Unhashable(UidOf(v))
    ensures Unrated(impls, existing).Some? ==>
      var kept := Unrated(impls, existing).value;
      IsSubseq(kept, impls) &&
      (forall v :: v in kept ==> !Rated(v, existing)) &&
      (forall v :: v in impls && !Rated(v, existing) ==> v in kept)
    decreases |impls|
  {
    if impls != [] {
      var init := impls[..|impls| - 1];
      var impl := impls[|impls| - 1];
      UnratedSpec(init, existing);
      assert impls == init + [impl];
      if Unrated(init, existing).Some? && !Unhashable(UidOf(impl)) {
        var prev := Unrated(init, existing).value;
        if Rated(impl, existing) {
          SubseqExtendRight(prev, init, [impl]);
        } else {
          SubseqAppendBoth(prev, init, [impl]);
        }
      }
    }
  }

  /** The implementations `generate` rates: loaded, filtered, then
      truncated to `num_samples`; `None` when loading or filtering raises. */
  function Input(file: Option<seq<string>>, parse: string -> Option<Value>, keys: Keys, existing: set<string>,
                 numSamples: Option<int>): Option<seq<Value>> {
    var loaded := if file.None? then Some([]) else Implementations(file.value, parse, keys);
    match loaded
    case None => None
    case Some(impls) =>
      match Unrated(impls, existing)
      case None => None
      case Some(kept) => Some(Take(kept, numSamples))
  }

  /** The filter runs before the truncation: an already-rated
      implementation never takes one of the `num_samples` places, and what
      is rated is the first `num_samples` unrated ones. */
  lemma FilterBeforeTruncation(file: Option<seq<string>>, parse: string -> Option<Value>, keys: Keys,
                               existing: set<string>, numSamples: Option<int>)
    requires Input(file, parse, keys, existing, numSamples).Some?
    ensures var loaded := if file.None? then Some([]) else Implementations(file.value, parse, keys);
      var items := Input(file, parse, keys, existing, numSamples).value;
      loaded.Some? && Unrated(loaded.value, existing).Some? &&
      items == Take(Unrated(loaded.value, existing).value, numSamples) &&
      (forall v :: v in items ==> !Rated(v, existing) && IsImpl(v))
  {
    var loaded := if file.None? then Some([]) else Implementations(file.value, parse, keys);
    if file.Some? {
      ImplementationsAreImpls(file.value, parse, keys);
    }
    UnratedSpec(loaded.value, existing);
    var kept := Unrated(loaded.value, existing).value;
    SubseqMembers(kept, loaded.value);
    var items := Input(file, parse, keys, existing, numSamples).value;
    assert forall v :: v in items ==> v in kept;
  }

  // ---------------------------------------------------------------------
  // Prompts

  const ProblemPlaceholder: string := "{{problem_text}}"
  const CodePlaceholder: string := "{{code}}"

  /** `_build_prompt(problem_text, code, template)`: every problem
      placeholder is filled first, then every code placeholder of the
      result, including one the problem text brought in. Nothing is
      stripped. */
  function BuildPrompt(problemText: string, code: string, template: string): string {
    Replace(Replace(template, ProblemPlaceholder, problemText), CodePlaceholder, code)
  }

  /** A template with one problem placeholder, at `i`, gets the problem
      text there; if the text then holds one code placeholder, at `j`, the
      code goes there, and nothing else changes. */
  lemma BuildPromptFills(problemText: string, code: string, template: string, i: nat, j: nat)
    requires OccursAt(template, ProblemPlaceholder, i)
    requires forall m :: 0 <= m < i ==> !OccursAt(template, ProblemPlaceholder, m)
    requires !Contains(template[i + |ProblemPlaceholder|..], ProblemPlaceholder)
    requires var filled := template[..i] + problemText + template[i + |ProblemPlaceholder|..];
      OccursAt(filled, CodePlaceholder, j) &&
      (forall m :: 0 <= m < j ==> !OccursAt(filled, CodePlaceholder, m)) &&
      !Contains(filled[j + |CodePlaceholder|..], CodePlaceholder)
    ensures var filled := template[..i] + problemText + template[i + |ProblemPlaceholder|..];
      BuildPrompt(problemText, code, template) == filled[..j] + code + filled[j + |CodePlaceholder|..]
  {
    ReplaceOnce(template, ProblemPlaceholder, problemText, i);
    var filled := template[..i] + problemText + template[i + |ProblemPlaceholder|..];
    ReplaceOnce(filled, CodePlaceholder, code, j);
  }

  /** A template without placeholders is sent as it is. */
  lemma BuildPromptWithoutPlaceholders(problemText: string, code: string, template: string)
    requires !Contains(template, ProblemPlaceholder) && !Contains(template, CodePlaceholder)
    ensures BuildPrompt(problemText, code, template) == template
  {
    assert Find(template, ProblemPlaceholder).None?;
    assert Find(template, CodePlaceholder).None?;
  }

  /** The prompt of one implementation; `None` for the `TypeError`
      `str.replace` raises when the problem text or the code is not a
      string. */
  function PromptFor(impl: Value, template: string): Option<string> {
    if IsImpl(impl) && impl.fields["problem_text"].Str? && impl.fields["code"].Str? then
      Some(BuildPrompt(impl.fields["problem_text"].s, impl.fields["code"].s, template))
    else None
  }

  function PromptOf(template: string): Value -> Option<string> {
    (impl: Value) => PromptFor(impl, template)
  }

  // ---------------------------------------------------------------------
  // Parsing and validating a rating

  /** The keys of the five scores, in the order both `_parse_rating` and
      `_validate_scores` visit them; the same five `extract_scores` reads. */
  const ScoreKeys: seq<string> := RatingAnalysis.Dimensions
  const SummaryKey: string := "summary"
  /** The keys of `_parse_rating`'s pattern table, in order. */
  const PatternKeys: seq<string> := ScoreKeys + [SummaryKey]

  /** The value of an ASCII decimal numeral: what `int()` makes of the
      digits a `(\d+)` group captures; `None` stands for `ValueError`. */
  function Decimal(s: string): (r: Option<nat>)
    ensures s == [] ==> r.None?
  {
    if s == [] then None
    else if !('0' <= s[|s| - 1] <= '9') then None
    else
      var d := (s[|s| - 1] as int) - ('0' as int);
      if |s| == 1 then Some(d)
      else match Decimal(s[..|s| - 1])
        case None => None
        case Some(n) => Some(10 * n + d)
  }

  /** `int()` reads back the numeral `str()` writes for a natural number. */
  lemma {:induction false} DecimalReadsNatText(n: nat)
    ensures Decimal(NatText(n)) == Some(n)
    decreases n
  {
    if n >= 10 {
      var s := NatText(n);
      assert s[..|s| - 1] == NatText(n / 10);
      DecimalReadsNatText(n / 10);
    }
  }

  /** The entry `_parse_rating` stores for `key` when its pattern's first
      group captured `found` (`None`: no match): the stripped summary, or
      the score. */
  function Field(key: string, found: Option<string>): (v: Value)
    ensures found.None? ==> v == Null
    ensures key == SummaryKey && found.Some? ==> v == Str(Strip(found.value))
    ensures key != SummaryKey ==> v.Null? || (v.Int? && found.Some? && Decimal(found.value) == Some(v.i))
  {
    if found.None? then Null
    else if key == SummaryKey then Str(Strip(found.value))
    else match Decimal(found.value)
      case None => Null
      case Some(n) => Int(n)
  }

  /** The dict `_parse_rating` fills for the first keys of the pattern
      table. `search(key, text)` is the regex search of `key`'s pattern in
      the text: the first group of the match, if any. */
  function Fill(keys: seq<string>, raw: string, search: (string, string) -> Option<string>): map<string, Value> {
    if keys == [] then map[]
    else Fill(keys[..|keys| - 1], raw, search)[keys[|keys| - 1] := Field(keys[|keys| - 1], search(keys[|keys| - 1], raw))]
  }

  /** `_parse_rating(raw_text)` */
  function ParsedRating(raw: string, search: (string, string) -> Option<string>): map<string, Value> {
    Fill(PatternKeys, raw, search)
  }

  /** The dict has exactly the keys of the table, each mapped to what its
      search found. */
  lemma {:induction false} FillSpec(keys: seq<string>, raw: string, search: (string, string) -> Option<string>)
    ensures Fill(keys, raw, search).Keys == set k | k in keys
    ensures forall k :: k in keys ==> Fill(keys, raw, search)[k] == Field(k, search(k, raw))
    decreases |keys|
  {
    if keys != [] {
      FillSpec(keys[..|keys| - 1], raw, search);
      assert keys == keys[..|keys| - 1] + [keys[|keys| - 1]];
    }
  }

  /** `_parse_rating` always returns all six keys; a pattern that does not
      match gives `None`, a summary is stripped, a score is a number. */
  lemma ParsedRatingSpec(raw: string, search: (string, string) -> Option<string>)
    ensures ParsedRating(raw, search).Keys == set k | k in PatternKeys
    ensures forall k :: k in PatternKeys ==> ParsedRating(raw, search)[k] == Field(k, search(k, raw))
    ensures forall k :: k in PatternKeys && search(k, raw).None? ==> ParsedRating(raw, search)[k] == Null
  {
    FillSpec(PatternKeys, raw, search);
  }

  /** The loop of `_parse_rating` over the pattern table. */
  method ParseRating(raw: string, search: (string, string) -> Option<string>) returns (result: map<string, Value>)
    ensures result == ParsedRating(raw, search)
  {
    result := map[];
    for n := 0 to |PatternKeys|
      invariant result == Fill(PatternKeys[..n], raw, search)
    {
      var key := PatternKeys[n];
      assert PatternKeys[..n + 1][..n] == PatternKeys[..n];
      var found := search(key, raw);
      if found.None? {
        result := result[key := Null];
      } else if key == SummaryKey {
        result := result[key := Str(Strip(found.value))];
      } else {
        var num := Decimal(found.value);
        result := result[key := if num.Some? then Int(num.value) else Null];
      }
    }
    assert PatternKeys[..|PatternKeys|] == PatternKeys;
  }

  /** `isinstance(score, int)` and the value compared: `bool` is a
      subclass of `int`, so `true` counts as 1 and `false` as 0. */
  function AsInt(v: Value): Option<int> {
    match v
    case Int(i) => Some(i)
    case Bool(b) => Some(if b then 1 else 0)
    case _ => None
  }

  predicate ScoreOk(v: Value, minScore: int, maxScore: int) {
    AsInt(v).Some? && minScore <= AsInt(v).value <= maxScore
  }

  /** The loop of `_validate_scores` over `keys`, returning `False` at the
      first missing, non-integer or out-of-range score. */
  predicate ScoresOk(scores: map<string, Value>, keys: seq<string>, minScore: int, maxScore: int) {
    keys == [] || (ScoreOk(GetOr(scores, keys[0], Null), minScore, maxScore) && ScoresOk(scores, keys[1..], minScore, maxScore))
  }

  /** `_validate_scores(scores, min_score, max_score)` */
  predicate ValidateScores(scores: map<string, Value>, minScore: int, maxScore: int) {
    ScoresOk(scores, ScoreKeys, minScore, maxScore) && Truthy(GetOr(scores, SummaryKey, Null))
  }

  lemma {:induction false} ScoresOkSpec(scores: map<string, Value>, keys: seq<string>, minScore: int, maxScore: int)
    ensures ScoresOk(scores, keys, minScore, maxScore) <==>
      forall k :: 0 <= k < |keys| ==> ScoreOk(GetOr(scores, keys[k], Null), minScore, maxScore)
    decreases |keys|
  {
    if keys != [] {
      ScoresOkSpec(scores, keys[1..], minScore, maxScore);
      assert forall k :: 1 <= k < |keys| ==> keys[1..][k - 1] == keys[k];
    }
  }

  /** `_validate_scores` holds exactly when each of the five keys holds an
      integer (or boolean) in `[min_score, max_score]` and the summary is
      truthy. */
  lemma ValidateScoresSpec(scores: map<string, Value>, minScore: int, maxScore: int)
    ensures ValidateScores(scores, minScore, maxScore) <==>
      (forall k :: 0 <= k < |ScoreKeys| ==>
        ScoreKeys[k] in scores && AsInt(scores[ScoreKeys[k]]).Some? &&
        minScore <= AsInt(scores[ScoreKeys[k]]).value <= maxScore) &&
      SummaryKey in scores && Truthy(scores[SummaryKey])
  {
    ScoresOkSpec(scores, ScoreKeys, minScore, maxScore);
  }

  /** A score dict agrees with another on the five keys: validity of the
      scores carries over. */
  lemma ScoresOkSame(a: map<string, Value>, b: map<string, Value>, keys: seq<string>, minScore: int, maxScore: int)
    requires forall k :: k in keys ==> GetOr(a, k, Null) == GetOr(b, k, Null)
    ensures ScoresOk(a, keys, minScore, maxScore) == ScoresOk(b, keys, minScore, maxScore)
  {
    ScoresOkSpec(a, keys, minScore, maxScore);
    ScoresOkSpec(b, keys, minScore, maxScore);
    assert forall k :: 0 <= k < |keys| ==> GetOr(a, keys[k], Null) == GetOr(b, keys[k], Null);
  }

  /** The loop of `_validate_scores`: the five keys in turn, returning
      `False` at the first bad score, then the summary check. */
  method CheckScores(scores: map<string, Value>, minScore: int, maxScore: int) returns (ok: bool)
    ensures ok == ValidateScores(scores, minScore, maxScore)
  {
    for n := 0 to |ScoreKeys|
      invariant ScoresOk(scores, ScoreKeys, minScore, maxScore) == ScoresOk(scores, ScoreKeys[n..], minScore, maxScore)
    {
      assert ScoreKeys[n..][0] == ScoreKeys[n] && ScoreKeys[n..][1..] == ScoreKeys[n + 1..];
      var score := GetOr(scores, ScoreKeys[n], Null);
      var i := AsInt(score);
      if i.None? || !(minScore <= i.value <= maxScore) {
        return false;
      }
    }
    ok := Truthy(GetOr(scores, SummaryKey, Null));
  }

  // ---------------------------------------------------------------------
  // One completion

  /** The generation settings `generate` passes around: the template, the
      validation switch and range, and the regex search of
      `_parse_rating`. */
  datatype Setup = Setup(template: string, validate: bool, minScore: int, maxScore: int,
                         search: (string, string) -> Option<string>)

  /** What becomes of one completion: an empty text after stripping, a
      rating whose scores fail validation, or an accepted rating. */
  datatype Outcome = Blank | Invalid | Valid(parsed: map<string, Value>)

  function Judge(text: string, cfg: Setup): Outcome {
    var rating := Strip(text);
    if rating == [] then Blank
    else
      var parsed := ParsedRating(rating, cfg.search);
      if cfg.validate && !ValidateScores(parsed, cfg.minScore, cfg.maxScore) then Invalid else Valid(parsed)
  }

  /** A whitespace-only text is blank; any other is parsed, and it is
      invalid exactly when validation is on and rejects the parsed scores. */
  lemma JudgeSpec(text: string, cfg: Setup)
    ensures Judge(text, cfg).Blank? <==> IsBlank(text)
    ensures Judge(text, cfg).Invalid? <==>
      !IsBlank(text) && cfg.validate && !ValidateScores(ParsedRating(Strip(text), cfg.search), cfg.minScore, cfg.maxScore)
    ensures Judge(text, cfg).Valid? ==>
      Judge(text, cfg).parsed == ParsedRating(Strip(text), cfg.search) &&
      (cfg.validate ==> ValidateScores(Judge(text, cfg).parsed, cfg.minScore, cfg.maxScore))
  {
    StripEmptyIffBlank(text);
  }

  /** The strip, parse and validation of one completion text. */
  method Examine(text: string, cfg: Setup) returns (o: Outcome)
    ensures o == Judge(text, cfg)
  {
    var rating := Strip(text);
    if rating == [] {
      return Blank;
    }
    var parsed := ParseRating(rating, cfg.search);
    if cfg.validate {
      var ok := CheckScores(parsed, cfg.minScore, cfg.maxScore);
      if !ok {
        return Invalid;
      }
    }
    o := Valid(parsed);
  }

  /** A field of an implementation. */
  function ImplField(impl: Value, key: string): Value {
    if impl.Dict? then GetOr(impl.fields, key, Null) else Null
  }

  /** The uid written to the hash file: the uid when it is a string. */
  function UidText(impl: Value): string {
    if UidOf(impl).Str? then UidOf(impl).s else ""
  }

  /** The `ratings` dict of a record: the five scores as parsed. */
  function Ratings(parsed: map<string, Value>): (r: map<string, Value>)
    ensures r.Keys == set k | k in ScoreKeys
    ensures forall k :: k in ScoreKeys ==> r[k] == GetOr(parsed, k, Null)
  {
    map k | k in ScoreKeys :: GetOr(parsed, k, Null)
  }

  /** The record buffered for an accepted completion `text` of `impl`. */
  function RatingRecord(impl: Value, text: string, parsed: map<string, Value>): Record {
    Rating(UidText(impl), ImplField(impl, "source"), ImplField(impl, "problem_text"), ImplField(impl, "code"),
           ImplField(impl, "function_name"), Ratings(parsed), GetOr(parsed, SummaryKey, Null), Strip(text))
  }

  /** What every record of a run satisfies: a rating with a non-empty raw
      text and the five score keys, whose scores and summary pass
      validation when it is on, and whose uid is not in the hash file. */
  predicate Fits(r: Record, cfg: Setup, existing: set<string>) {
    r.Rating? && r.rawRatingText != [] && r.ratings.Keys == (set k | k in ScoreKeys) &&
    (cfg.validate ==> ScoresOk(r.ratings, ScoreKeys, cfg.minScore, cfg.maxScore) && Truthy(r.summary)) &&
    r.uid !in existing
  }

  /** An implementation that may be rated: not in the hash file. */
  predicate Unseen(impl: Value, existing: set<string>) {
    !Rated(impl, existing) && "" !in existing
  }

  /** An accepted completion of an unrated implementation gives a record
      that fits. */
  lemma ValidFits(impl: Value, text: string, cfg: Setup, existing: set<string>)
    requires Judge(text, cfg).Valid? && Unseen(impl, existing)
    ensures Fits(RatingRecord(impl, text, Judge(text, cfg).parsed), cfg, existing)
  {
    var p := Judge(text, cfg).parsed;
    JudgeSpec(text, cfg);
    StripEmptyIffBlank(text);
    ScoresOkSame(Ratings(p), p, ScoreKeys, cfg.minScore, cfg.maxScore);
  }

  /** The JSON object written for a rating record, as `rating_analyzer`
      reads it back. */
  function RecordJson(r: Record): map<string, Value>
    requires r.Rating?
  {
    map["uid" := Str(r.uid), "source" := r.source, "problem_text" := r.problemText, "code" := r.code,
        "function_name" := r.functionName, "ratings" := Dict(r.ratings), "summary" := r.summary,
        "raw_rating_text" := Str(r.rawRatingText)]
  }

  /** With validation on and a range inside `[1, 5]`, the analysis keeps
      every score of every record a run writes: none is skipped and none
      makes it raise. */
  lemma AnalyzerKeepsScores(r: Record, cfg: Setup, existing: set<string>)
    requires Fits(r, cfg, existing) && cfg.validate && 1 <= cfg.minScore && cfg.maxScore <= 5
    ensures RatingAnalysis.RecordOk(RecordJson(r))
    ensures forall k :: 0 <= k < |ScoreKeys| ==>
      ScoreKeys[k] in r.ratings && AsInt(r.ratings[ScoreKeys[k]]).Some? &&
      RatingAnalysis.ScoreAt(RecordJson(r), ScoreKeys[k]) == RatingAnalysis.Keep(AsInt(r.ratings[ScoreKeys[k]]).value)
  {
    ScoresOkSpec(r.ratings, ScoreKeys, cfg.minScore, cfg.maxScore);
    assert SubDict(RecordJson(r), "ratings") == Some(r.ratings);
    forall k | 0 <= k < |ScoreKeys|
      ensures ScoreKeys[k] in r.ratings && AsInt(r.ratings[ScoreKeys[k]]).Some? &&
        RatingAnalysis.ScoreAt(RecordJson(r), ScoreKeys[k]) == RatingAnalysis.Keep(AsInt(r.ratings[ScoreKeys[k]]).value)
    {
      assert ScoreKeys[k] in r.ratings;
    }
  }

  // ---------------------------------------------------------------------
  // The counters of a run

  /** The records accepted so far (flushed, then pending) and the two
      counters `total_parse_failures` and `total_invalid_scores`. */
  datatype Counts = Counts(accepted: seq<Record>, parseFailures: nat, invalidScores: nat)

  const Start := Counts([], 0, 0)

  /** Every record accepted so far fits. */
  predicate AllFit(c: Counts, cfg: Setup, existing: set<string>) {
    forall r :: r in c.accepted ==> Fits(r, cfg, existing)
  }

  /** The store holds the records of `c`. */
  ghost predicate Holds(store: Store, c: Counts)
    reads store
  {
    store.Live() && store.allResults + store.pendingWrite == c.accepted
  }

  // ---------------------------------------------------------------------
  // First pass

  /** The first pass over the completions for `impl`: accepted ratings are
      buffered, the others left for the retry queue or dropped. */
  function FirstList(c: Counts, impl: Value, texts: seq<string>, cfg: Setup): Counts
    decreases |texts|
  {
    if texts == [] then c
    else FirstStep(FirstList(c, impl, texts[..|texts| - 1], cfg), impl, texts[|texts| - 1], cfg)
  }

  /** One completion of the first pass. */
  function FirstStep(c: Counts, impl: Value, text: string, cfg: Setup): Counts {
    match Judge(text, cfg)
    case Valid(p) => c.(accepted := c.accepted + [RatingRecord(impl, text, p)])
    case _ => c
  }

  /** The retry tasks the completions for `impl` add: one per completion
      whose scores fail validation. */
  function ListTasks(impl: Value, texts: seq<string>, cfg: Setup): (r: seq<Value>)
    ensures forall x :: x in r ==> x == impl
    decreases |texts|
  {
    if texts == [] then []
    else ListTasks(impl, texts[..|texts| - 1], cfg) + if Judge(texts[|texts| - 1], cfg).Invalid? then [impl] else []
  }

  /** The first pass over the first `n` lists of a reply, list `i`
      answering implementation `i`. */
  function FirstReply(c: Counts, batch: seq<Value>, lists: seq<seq<string>>, n: nat, cfg: Setup): Counts
    requires n <= |lists| <= |batch|
  {
    if n == 0 then c else FirstList(FirstReply(c, batch, lists, n - 1, cfg), batch[n - 1], lists[n - 1], cfg)
  }

  /** `retry_tasks` after the first `n` lists of a reply. */
  function ReplyTasks(batch: seq<Value>, lists: seq<seq<string>>, n: nat, cfg: Setup): (r: seq<Value>)
    requires n <= |lists| <= |batch|
    ensures forall x :: x in r ==> x in batch
  {
    if n == 0 then [] else ReplyTasks(batch, lists, n - 1, cfg) + ListTasks(batch[n - 1], lists[n - 1], cfg)
  }

  /** The first pass leaves both counters alone, only appends, and each
      completion gives at most one record or one task; when none is blank,
      exactly one. */
  lemma {:induction false} FirstListAccounts(c: Counts, impl: Value, texts: seq<string>, cfg: Setup)
    ensures var r := FirstList(c, impl, texts, cfg);
      r.parseFailures == c.parseFailures && r.invalidScores == c.invalidScores && c.accepted <= r.accepted &&
      |r.accepted| - |c.accepted| + |ListTasks(impl, texts, cfg)| <= |texts|
    ensures (forall j :: 0 <= j < |texts| ==> !IsBlank(texts[j])) ==>
      |FirstList(c, impl, texts, cfg).accepted| - |c.accepted| + |ListTasks(impl, texts, cfg)| == |texts|
    decreases |texts|
  {
    if texts != [] {
      var init := texts[..|texts| - 1];
      FirstListAccounts(c, impl, init, cfg);
      JudgeSpec(texts[|texts| - 1], cfg);
    }
  }

  lemma {:induction false} FirstListFits(c: Counts, impl: Value, texts: seq<string>, cfg: Setup, existing: set<string>)
    requires AllFit(c, cfg, existing) && Unseen(impl, existing)
    ensures AllFit(FirstList(c, impl, texts, cfg), cfg, existing)
    decreases |texts|
  {
    if texts != [] {
      var text := texts[|texts| - 1];
      FirstListFits(c, impl, texts[..|texts| - 1], cfg, existing);
      if Judge(text, cfg).Valid? {
        ValidFits(impl, text, cfg, existing);
      }
    }
  }

  lemma {:induction false} FirstReplyFits(c: Counts, batch: seq<Value>, lists: seq<seq<string>>, n: nat, cfg: Setup,
                                          existing: set<string>)
    requires n <= |lists| <= |batch|
    requires AllFit(c, cfg, existing) && forall v :: v in batch ==> Unseen(v, existing)
    ensures AllFit(FirstReply(c, batch, lists, n, cfg), cfg, existing)
    decreases n
  {
    if n > 0 {
      FirstReplyFits(c, batch, lists, n - 1, cfg, existing);
      FirstListFits(FirstReply(c, batch, lists, n - 1, cfg), batch[n - 1], lists[n - 1], cfg, existing);
    }
  }

  lemma {:induction false} FirstReplyCounters(c: Counts, batch: seq<Value>, lists: seq<seq<string>>, n: nat, cfg: Setup)
    requires n <= |lists| <= |batch|
    ensures var r := FirstReply(c, batch, lists, n, cfg);
      r.parseFailures == c.parseFailures && r.invalidScores == c.invalidScores && c.accepted <= r.accepted
    decreases n
  {
    if n > 0 {
      FirstReplyCounters(c, batch, lists, n - 1, cfg);
      FirstListAccounts(FirstReply(c, batch, lists, n - 1, cfg), batch[n - 1], lists[n - 1], cfg);
    }
  }

  // ---------------------------------------------------------------------
  // Retry round

  /** The retry of one task over its completions: a blank one counts as a
      parse failure, an invalid one as an invalid score, and the first
      accepted one is buffered and ends the task (`break`). */
  function RetryList(c: Counts, impl: Value, texts: seq<string>, cfg: Setup): Counts
    decreases |texts|
  {
    if texts == [] then c
    else
      match Judge(texts[0], cfg)
      case Blank => RetryList(c.(parseFailures := c.parseFailures + 1), impl, texts[1..], cfg)
      case Invalid => RetryList(c.(invalidScores := c.invalidScores + 1), impl, texts[1..], cfg)
      case Valid(p) => c.(accepted := c.accepted + [RatingRecord(impl, texts[0], p)])
  }

  /** The position of the first accepted completion, if any. */
  function FirstValid(texts: seq<string>, cfg: Setup): (r: Option<nat>)
    ensures r.Some? ==> r.value < |texts| && Judge(texts[r.value], cfg).Valid?
    decreases |texts|
  {
    if texts == [] then None
    else if Judge(texts[0], cfg).Valid? then Some(0)
    else match FirstValid(texts[1..], cfg)
      case None => None
      case Some(j) => Some(j + 1)
  }

  /** `FirstValid` finds the first accepted completion, and finds none
      exactly when there is none. */
  lemma FirstValidSpec(texts: seq<string>, cfg: Setup)
    ensures FirstValid(texts, cfg).Some? ==>
      var j := FirstValid(texts, cfg).value;
      forall m :: 0 <= m < j ==> !Judge(texts[m], cfg).Valid?
    ensures FirstValid(texts, cfg).None? <==> forall m :: 0 <= m < |texts| ==> !Judge(texts[m], cfg).Valid?
  {
    FirstValidBefore(texts, cfg);
    FirstValidNone(texts, cfg);
  }

  /** No completion before the first valid one is valid. */
  lemma {:induction false} FirstValidBefore(texts: seq<string>, cfg: Setup)
    ensures FirstValid(texts, cfg).Some? ==>
      forall m :: 0 <= m < FirstValid(texts, cfg).value ==> !Judge(texts[m], cfg).Valid?
    decreases |texts|
  {
    if texts != [] && !Judge(texts[0], cfg).Valid? {
      FirstValidBefore(texts[1..], cfg);
      assert forall m :: 1 <= m < |texts| ==> texts[1..][m - 1] == texts[m];
    }
  }

  /** There is no valid completion exactly when none is found. */
  lemma {:induction false} FirstValidNone(texts: seq<string>, cfg: Setup)
    ensures FirstValid(texts, cfg).None? <==> forall m :: 0 <= m < |texts| ==> !Judge(texts[m], cfg).Valid?
    decreases |texts|
  {
    if texts != [] && !Judge(texts[0], cfg).Valid? {
      FirstValidNone(texts[1..], cfg);
      assert forall m :: 1 <= m < |texts| ==> texts[1..][m - 1] == texts[m];
    }
  }

  /** A retried task yields the record of its first accepted completion,
      after counting every completion before it as a parse failure or an
      invalid score; without an accepted one it yields nothing and every
      completion is counted. */
  lemma RetryListSpec(c: Counts, impl: Value, texts: seq<string>, cfg: Setup)
    ensures var r := RetryList(c, impl, texts, cfg);
      match FirstValid(texts, cfg)
      case None =>
        r.accepted == c.accepted && r.parseFailures + r.invalidScores == c.parseFailures + c.invalidScores + |texts|
      case Some(j) =>
        r.accepted == c.accepted + [RatingRecord(impl, texts[j], Judge(texts[j], cfg).parsed)] &&
        r.parseFailures + r.invalidScores == c.parseFailures + c.invalidScores + j
  {
    if FirstValid(texts, cfg).None? {
      RetryListNone(c, impl, texts, cfg);
    } else {
      RetryListSome(c, impl, texts, cfg);
      ValidTextAt(texts, cfg);
    }
  }

  /** With no accepted completion every one is counted as a failure. */
  lemma {:induction false} RetryListNone(c: Counts, impl: Value, texts: seq<string>, cfg: Setup)
    requires FirstValid(texts, cfg).None?
    ensures var r := RetryList(c, impl, texts, cfg);
      r.accepted == c.accepted && r.parseFailures + r.invalidScores == c.parseFailures + c.invalidScores + |texts|
    decreases |texts|
  {
    if texts != [] {
      var c' := RetryListSkip(c, impl, texts, cfg);
      RetryListNone(c', impl, texts[1..], cfg);
    }
  }

  /** The first accepted completion of a list that has one. */
  function ValidText(texts: seq<string>, cfg: Setup): (r: string)
    requires FirstValid(texts, cfg).Some?
    ensures Judge(r, cfg).Valid?
    decreases |texts|
  {
    if Judge(texts[0], cfg).Valid? then texts[0] else ValidText(texts[1..], cfg)
  }

  lemma {:induction false} ValidTextAt(texts: seq<string>, cfg: Setup)
    requires FirstValid(texts, cfg).Some?
    ensures ValidText(texts, cfg) == texts[FirstValid(texts, cfg).value]
    decreases |texts|
  {
    if !Judge(texts[0], cfg).Valid? {
      ValidTextAt(texts[1..], cfg);
    }
  }

  /** The first accepted completion gives the one record; those before it
      are counted as failures. */
  lemma {:induction false} RetryListSome(c: Counts, impl: Value, texts: seq<string>, cfg: Setup)
    requires FirstValid(texts, cfg).Some?
    ensures var r := RetryList(c, impl, texts, cfg);
      var t := ValidText(texts, cfg);
      r.accepted == c.accepted + [RatingRecord(impl, t, Judge(t, cfg).parsed)] &&
      r.parseFailures + r.invalidScores == c.parseFailures + c.invalidScores + FirstValid(texts, cfg).value
    decreases |texts|
  {
    if Judge(texts[0], cfg).Valid? {
      RetryListTake(c, impl, texts, cfg);
    } else {
      var c' := RetryListSkip(c, impl, texts, cfg);
      RetryListSome(c', impl, texts[1..], cfg);
    }
  }

  /** The retry list from position `j` on, by the verdict on `texts[j]`. */
  lemma RetryListAt(c: Counts, impl: Value, texts: seq<string>, j: nat, cfg: Setup)
    requires j < |texts|
    ensures Judge(texts[j], cfg).Valid? ==>
      RetryList(c, impl, texts[j..], cfg) ==
      c.(accepted := c.accepted + [RatingRecord(impl, texts[j], Judge(texts[j], cfg).parsed)])
    ensures Judge(texts[j], cfg).Invalid? ==>
      RetryList(c, impl, texts[j..], cfg) ==
      RetryList(c.(invalidScores := c.invalidScores + 1), impl, texts[j + 1..], cfg)
    ensures Judge(texts[j], cfg).Blank? ==>
      RetryList(c, impl, texts[j..], cfg) ==
      RetryList(c.(parseFailures := c.parseFailures + 1), impl, texts[j + 1..], cfg)
  {
    assert texts[j..][0] == texts[j] && texts[j..][1..] == texts[j + 1..];
  }

  /** The retry list over all of `texts`, and over none of it. */
  lemma RetryListEnds(c: Counts, impl: Value, texts: seq<string>, cfg: Setup)
    ensures RetryList(c, impl, texts[0..], cfg) == RetryList(c, impl, texts, cfg)
    ensures RetryList(c, impl, texts[|texts|..], cfg) == c
  {
    assert texts[0..] == texts;
    assert texts[|texts|..] == [];
  }

  /** An accepted first completion ends the retry list with its record. */
  lemma RetryListTake(c: Counts, impl: Value, texts: seq<string>, cfg: Setup)
    requires texts != [] && Judge(texts[0], cfg).Valid?
    ensures FirstValid(texts, cfg) == Some(0) && ValidText(texts, cfg) == texts[0]
    ensures RetryList(c, impl, texts, cfg) ==
      c.(accepted := c.accepted + [RatingRecord(impl, texts[0], Judge(texts[0], cfg).parsed)])
  {
  }

  /** A rejected first completion is counted once and the list goes on. */
  lemma RetryListSkip(c: Counts, impl: Value, texts: seq<string>, cfg: Setup) returns (c': Counts)
    requires texts != [] && !Judge(texts[0], cfg).Valid?
    ensures c'.accepted == c.accepted
    ensures c'.parseFailures + c'.invalidScores == c.parseFailures + c.invalidScores + 1
    ensures RetryList(c, impl, texts, cfg) == RetryList(c', impl, texts[1..], cfg)
    ensures FirstValid(texts, cfg).Some? <==> FirstValid(texts[1..], cfg).Some?
    ensures FirstValid(texts, cfg).Some? ==>
      FirstValid(texts, cfg).value == FirstValid(texts[1..], cfg).value + 1 &&
      ValidText(texts, cfg) == ValidText(texts[1..], cfg)
  {
    if Judge(texts[0], cfg).Blank? {
      c' := c.(parseFailures := c.parseFailures + 1);
    } else {
      c' := c.(invalidScores := c.invalidScores + 1);
    }
  }

  /** A retry task appends at most one record and never lowers a counter. */
  lemma {:induction false} RetryListGrows(c: Counts, impl: Value, texts: seq<string>, cfg: Setup)
    ensures var r := RetryList(c, impl, texts, cfg);
      c.accepted <= r.accepted && |r.accepted| <= |c.accepted| + 1 &&
      r.parseFailures >= c.parseFailures && r.invalidScores >= c.invalidScores
    decreases |texts|
  {
    if texts != [] {
      match Judge(texts[0], cfg)
      case Valid(_) =>
      case Blank =>
        RetryListGrows(c.(parseFailures := c.parseFailures + 1), impl, texts[1..], cfg);
      case Invalid =>
        RetryListGrows(c.(invalidScores := c.invalidScores + 1), impl, texts[1..], cfg);
    }
  }

  /** The retry loop over the first `n` lists of the retry reply, list `i`
      answering task `i`. */
  function RetryReply(c: Counts, tasks: seq<Value>, lists: seq<seq<string>>, n: nat, cfg: Setup): Counts
    requires n <= |lists| <= |tasks|
  {
    if n == 0 then c else RetryList(RetryReply(c, tasks, lists, n - 1, cfg), tasks[n - 1], lists[n - 1], cfg)
  }

  /** The retry round only appends, at most one record per task, and never
      lowers a counter. */
  lemma {:induction false} RetryReplyBounds(c: Counts, tasks: seq<Value>, lists: seq<seq<string>>, n: nat, cfg: Setup)
    requires n <= |lists| <= |tasks|
    ensures var r := RetryReply(c, tasks, lists, n, cfg);
      c.accepted <= r.accepted && |r.accepted| <= |c.accepted| + n &&
      r.parseFailures >= c.parseFailures && r.invalidScores >= c.invalidScores
    decreases n
  {
    if n > 0 {
      var prev := RetryReply(c, tasks, lists, n - 1, cfg);
      RetryReplyBounds(c, tasks, lists, n - 1, cfg);
      RetryListGrows(prev, tasks[n - 1], lists[n - 1], cfg);
    }
  }

  lemma {:induction false} RetryListFits(c: Counts, impl: Value, texts: seq<string>, cfg: Setup, existing: set<string>)
    requires AllFit(c, cfg, existing) && Unseen(impl, existing)
    ensures AllFit(RetryList(c, impl, texts, cfg), cfg, existing)
    decreases |texts|
  {
    if texts != [] {
      match Judge(texts[0], cfg)
      case Blank =>
        RetryListFits(c.(parseFailures := c.parseFailures + 1), impl, texts[1..], cfg, existing);
      case Invalid =>
        RetryListFits(c.(invalidScores := c.invalidScores + 1), impl, texts[1..], cfg, existing);
      case Valid(p) =>
        ValidFits(impl, texts[0], cfg, existing);
    }
  }

  lemma {:induction false} RetryReplyFits(c: Counts, tasks: seq<Value>, lists: seq<seq<string>>, n: nat, cfg: Setup,
                                          existing: set<string>)
    requires n <= |lists| <= |tasks|
    requires AllFit(c, cfg, existing) && forall v :: v in tasks ==> Unseen(v, existing)
    ensures AllFit(RetryReply(c, tasks, lists, n, cfg), cfg, existing)
    decreases n
  {
    if n > 0 {
      RetryReplyFits(c, tasks, lists, n - 1, cfg, existing);
      RetryListFits(RetryReply(c, tasks, lists, n - 1, cfg), tasks[n - 1], lists[n - 1], cfg, existing);
    }
  }

  // ---------------------------------------------------------------------
  // One batch

  /** `retry_tasks` after the first pass over a reply to `batch`. */
  function Tasks(batch: seq<Value>, lists: seq<seq<string>>, cfg: Setup): (r: seq<Value>)
    ensures forall x :: x in r ==> x in batch
  {
    var ls := Answered(lists, batch);
    ReplyTasks(batch, ls, |ls|, cfg)
  }

  /** The retry round runs: the first pass raised no `IndexError` and left
      tasks. */
  predicate Retries(batch: seq<Value>, lists: seq<seq<string>>, cfg: Setup) {
    |lists| <= |batch| && Tasks(batch, lists, cfg) != []
  }

  /** The counters after a batch whose prompts were built: the first pass,
      then the retry round when it runs. A failed retry request, or an
      extra list in its reply, is caught inside the batch and counts every
      task as a parse failure, keeping what was buffered before. */
  function BatchFold(c: Counts, batch: seq<Value>, reply: Reply, retry: Reply, cfg: Setup): Counts {
    if reply.Failed? then c
    else
      var ls := Answered(reply.lists, batch);
      var first := FirstReply(c, batch, ls, |ls|, cfg);
      if !Retries(batch, reply.lists, cfg) then first
      else
        var tasks := Tasks(batch, reply.lists, cfg);
        if retry.Failed? then first.(parseFailures := first.parseFailures + |tasks|)
        else
          var rl := Answered(retry.lists, tasks);
          var after := RetryReply(first, tasks, rl, |rl|, cfg);
          if |retry.lists| > |tasks| then after.(parseFailures := after.parseFailures + |tasks|) else after
  }

  /** A batch only appends records, at most one per completion of the
      first pass plus one per retry task, and never lowers a counter. */
  lemma BatchFoldBounds(c: Counts, batch: seq<Value>, reply: Reply, retry: Reply, cfg: Setup)
    ensures var r := BatchFold(c, batch, reply, retry, cfg);
      c.accepted <= r.accepted && r.parseFailures >= c.parseFailures && r.invalidScores >= c.invalidScores
    ensures reply.Failed? ==> BatchFold(c, batch, reply, retry, cfg) == c
  {
    if reply.Replied? {
      var ls := Answered(reply.lists, batch);
      FirstReplyCounters(c, batch, ls, |ls|, cfg);
      if Retries(batch, reply.lists, cfg) && retry.Replied? {
        var tasks := Tasks(batch, reply.lists, cfg);
        var rl := Answered(retry.lists, tasks);
        RetryReplyBounds(FirstReply(c, batch, ls, |ls|, cfg), tasks, rl, |rl|, cfg);
      }
    }
  }

  lemma BatchFoldFits(c: Counts, batch: seq<Value>, reply: Reply, retry: Reply, cfg: Setup, existing: set<string>)
    requires AllFit(c, cfg, existing) && forall v :: v in batch ==> Unseen(v, existing)
    ensures AllFit(BatchFold(c, batch, reply, retry, cfg), cfg, existing)
  {
    if reply.Replied? {
      var ls := Answered(reply.lists, batch);
      FirstReplyFits(c, batch, ls, |ls|, cfg, existing);
      if Retries(batch, reply.lists, cfg) && retry.Replied? {
        var tasks := Tasks(batch, reply.lists, cfg);
        var rl := Answered(retry.lists, tasks);
        RetryReplyFits(FirstReply(c, batch, ls, |ls|, cfg), tasks, rl, |rl|, cfg, existing);
      }
    }
  }

  /** The counters at the end of the batch loop, from batch `b` and
      counters `c` on; the loop stops at the first batch whose prompts
      raise. */
  function RunFold(c: Counts, items: seq<Value>, k: nat, cfg: Setup,
                   replies: seq<Reply>, retries: seq<Reply>, nb: nat, b: nat): Counts
    requires k > 0
    decreases nb - b
  {
    if b >= nb || !AllPrompted(Batch(items, k, b), PromptOf(cfg.template)) then c
    else RunFold(BatchFold(c, Batch(items, k, b), ReplyAt(replies, b), ReplyAt(retries, b), cfg),
                 items, k, cfg, replies, retries, nb, b + 1)
  }

  /** A whole run over unrated implementations writes only records that
      fit. */
  lemma {:induction false} RunFoldFits(c: Counts, items: seq<Value>, k: nat, cfg: Setup,
                                       replies: seq<Reply>, retries: seq<Reply>, nb: nat, b: nat, existing: set<string>)
    requires k > 0 && AllFit(c, cfg, existing) && forall v :: v in items ==> Unseen(v, existing)
    ensures AllFit(RunFold(c, items, k, cfg, replies, retries, nb, b), cfg, existing)
    decreases nb - b
  {
    if b < nb && AllPrompted(Batch(items, k, b), PromptOf(cfg.template)) {
      var batch := Batch(items, k, b);
      assert forall v :: v in batch ==> v in items;
      BatchFoldFits(c, batch, ReplyAt(replies, b), ReplyAt(retries, b), cfg, existing);
      RunFoldFits(BatchFold(c, batch, ReplyAt(replies, b), ReplyAt(retries, b), cfg),
                  items, k, cfg, replies, retries, nb, b + 1, existing);
    }
  }

  /** Every task is an implementation of the batch, which has its prompt:
      the retry prompts are built like the first ones and cannot raise. */
  lemma TasksPrompted(batch: seq<Value>, lists: seq<seq<string>>, cfg: Setup)
    requires AllPrompted(batch, PromptOf(cfg.template))
    ensures AllPrompted(Tasks(batch, lists, cfg), PromptOf(cfg.template))
  {
    var tasks := Tasks(batch, lists, cfg);
    forall j | 0 <= j < |tasks|
      ensures PromptOf(cfg.template)(tasks[j]).Some?
    {
      assert tasks[j] in batch;
    }
  }

  /** The retry request of a batch: one prompt per task; nothing when the
      retry round does not run. */
  function RetryPrompts(batch: seq<Value>, reply: Reply, cfg: Setup): (r: seq<seq<string>>)
    ensures |r| <= 1
    ensures r != [] <==> AllPrompted(batch, PromptOf(cfg.template)) && reply.Replied? && Retries(batch, reply.lists, cfg)
    ensures r != [] ==>
      Prompts(Tasks(batch, reply.lists, cfg), PromptOf(cfg.template)) == Some(r[0]) &&
      |r[0]| == |Tasks(batch, reply.lists, cfg)|
  {
    if AllPrompted(batch, PromptOf(cfg.template)) && reply.Replied? && Retries(batch, reply.lists, cfg) then
      TasksPrompted(batch, reply.lists, cfg);
      [Prompts(Tasks(batch, reply.lists, cfg), PromptOf(cfg.template)).value]
    else []
  }

  /** The retry requests of the first `b` batches. */
  function RetriesUpTo(items: seq<Value>, k: nat, cfg: Setup, replies: seq<Reply>, b: nat): seq<seq<string>>
    requires k > 0
  {
    if b == 0 then []
    else RetriesUpTo(items, k, cfg, replies, b - 1) + RetryPrompts(Batch(items, k, b - 1), ReplyAt(replies, b - 1), cfg)
  }

  // ---------------------------------------------------------------------
  // The batch loop

  /** `pending_write.append({...})` and `pending_hashes.append(uid)` for an
      accepted completion `text` of `impl`. */
  method Accept(store: Store, impl: Value, text: string, parsed: map<string, Value>, ghost c: Counts)
    requires Holds(store, c)
    modifies store
    ensures Holds(store, c.(accepted := c.accepted + [RatingRecord(impl, text, parsed)]))
    ensures store.Flushed() == old(store.Flushed())
  {
    store.Buffer(RatingRecord(impl, text, parsed));
    assert store.allResults + store.pendingWrite == old(store.allResults + store.pendingWrite) + [RatingRecord(impl, text, parsed)];
  }

  /** One completion of the first pass: an accepted rating is buffered; an
      invalid one becomes a retry task. */
  method FirstText(store: Store, impl: Value, text: string, cfg: Setup, ghost c: Counts) returns (task: bool)
    requires Holds(store, c)
    modifies store
    ensures Holds(store, FirstStep(c, impl, text, cfg))
    ensures task == Judge(text, cfg).Invalid?
    ensures store.Flushed() == old(store.Flushed())
  {
    var o := Examine(text, cfg);
    task := o.Invalid?;
    if o.Valid? {
      Accept(store, impl, text, o.parsed, c);
    }
  }

  /** The first-pass loop over the completions for `impl`. */
  method ProcessList(store: Store, impl: Value, texts: seq<string>, cfg: Setup, ghost c: Counts, tasks: seq<Value>)
    returns (tasksAfter: seq<Value>)
    requires Holds(store, c)
    modifies store
    ensures Holds(store, FirstList(c, impl, texts, cfg))
    ensures tasksAfter == tasks + ListTasks(impl, texts, cfg)
    ensures store.Flushed() == old(store.Flushed())
  {
    ghost var cur := c;
    ghost var f0 := store.Flushed();
    var added: seq<Value> := [];
    for j := 0 to |texts|
      invariant Holds(store, cur) && store.Flushed() == f0
      invariant cur == FirstList(c, impl, texts[..j], cfg)
      invariant added == ListTasks(impl, texts[..j], cfg)
    {
      assert texts[..j + 1][..j] == texts[..j];
      var task := FirstText(store, impl, texts[j], cfg, cur);
      cur := FirstStep(cur, impl, texts[j], cfg);
      if task {
        added := added + [impl];
      }
    }
    assert texts[..|texts|] == texts;
    tasksAfter := tasks + added;
  }

  /** The first-pass loop over the lists of one reply, list `i` answering
      implementation `i`. */
  method ProcessReply(store: Store, lists: seq<seq<string>>, batch: seq<Value>, cfg: Setup, ghost c: Counts)
    returns (tasks: seq<Value>)
    requires |lists| <= |batch| && Holds(store, c)
    modifies store
    ensures Holds(store, FirstReply(c, batch, lists, |lists|, cfg))
    ensures tasks == ReplyTasks(batch, lists, |lists|, cfg)
    ensures store.Flushed() == old(store.Flushed())
  {
    tasks := [];
    ghost var cur := c;
    ghost var f0 := store.Flushed();
    for i := 0 to |lists|
      invariant Holds(store, cur) && store.Flushed() == f0
      invariant cur == FirstReply(c, batch, lists, i, cfg)
      invariant tasks == ReplyTasks(batch, lists, i, cfg)
    {
      tasks := ProcessList(store, batch[i], lists[i], cfg, cur, tasks);
      cur := FirstList(cur, batch[i], lists[i], cfg);
    }
  }

  /** The retry loop over one task's completions, ending at the first
      accepted one (`break`). */
  method RetryTexts(store: Store, impl: Value, texts: seq<string>, cfg: Setup, ghost c: Counts,
                    parseFailures: nat, invalidScores: nat)
    returns (failures: nat, invalid: nat)
    requires Holds(store, c) && parseFailures == c.parseFailures && invalidScores == c.invalidScores
    modifies store
    ensures var r := RetryList(c, impl, texts, cfg);
      Holds(store, r) && failures == r.parseFailures && invalid == r.invalidScores
    ensures store.Flushed() == old(store.Flushed())
  {
    failures, invalid := parseFailures, invalidScores;
    ghost var final := RetryList(c, impl, texts, cfg);
    ghost var cur := c;
    ghost var f0 := store.Flushed();
    var j := 0;
    RetryListEnds(c, impl, texts, cfg);
    while j < |texts|
      invariant 0 <= j <= |texts|
      invariant Holds(store, cur) && failures == cur.parseFailures && invalid == cur.invalidScores
      invariant store.Flushed() == f0
      invariant RetryList(cur, impl, texts[j..], cfg) == final
    {
      var stop;
      stop, failures, invalid, cur := RetryStep(store, impl, texts, j, cfg, cur, failures, invalid);
      if stop {
        return;
      }
      j := j + 1;
    }
    RetryListEnds(cur, impl, texts, cfg);
  }

  /** One completion of a retry task: a valid one is buffered and ends the
      task, any other is counted. */
  method RetryStep(store: Store, impl: Value, texts: seq<string>, j: nat, cfg: Setup, ghost cur: Counts,
                   failures: nat, invalid: nat)
    returns (stop: bool, failures': nat, invalid': nat, ghost next: Counts)
    requires j < |texts|
    requires Holds(store, cur) && failures == cur.parseFailures && invalid == cur.invalidScores
    modifies store
    ensures stop ==> var r := RetryList(cur, impl, texts[j..], cfg);
      Holds(store, r) && failures' == r.parseFailures && invalid' == r.invalidScores
    ensures !stop ==> Holds(store, next) && failures' == next.parseFailures && invalid' == next.invalidScores
    ensures !stop ==> RetryList(next, impl, texts[j + 1..], cfg) == RetryList(cur, impl, texts[j..], cfg)
    ensures store.Flushed() == old(store.Flushed())
  {
    RetryListAt(cur, impl, texts, j, cfg);
    failures', invalid', next := failures, invalid, cur;
    var o := Examine(texts[j], cfg);
    if o.Valid? {
      Accept(store, impl, texts[j], o.parsed, cur);
      return true, failures', invalid', next;
    } else if o.Invalid? {
      invalid' := invalid + 1;
      next := cur.(invalidScores := cur.invalidScores + 1);
    } else {
      failures' := failures + 1;
      next := cur.(parseFailures := cur.parseFailures + 1);
    }
    stop := false;
  }

  /** The retry loop over the lists of the retry reply, list `i` answering
      task `i`; each task answered has its `attempts` raised to 1. */
  method RetryRound(store: Store, tasks: seq<Value>, lists: seq<seq<string>>, cfg: Setup, ghost c: Counts,
                    parseFailures: nat, invalidScores: nat)
    returns (failures: nat, invalid: nat, attempts: seq<nat>)
    requires |lists| <= |tasks|
    requires Holds(store, c) && parseFailures == c.parseFailures && invalidScores == c.invalidScores
    modifies store
    ensures var r := RetryReply(c, tasks, lists, |lists|, cfg);
      Holds(store, r) && failures == r.parseFailures && invalid == r.invalidScores
    ensures attempts == Attempts(|tasks|, |lists|)
    ensures store.Flushed() == old(store.Flushed())
  {
    failures, invalid := parseFailures, invalidScores;
    attempts := Attempts(|tasks|, 0);
    ghost var cur := c;
    ghost var f0 := store.Flushed();
    for i := 0 to |lists|
      invariant Holds(store, cur) && failures == cur.parseFailures && invalid == cur.invalidScores
      invariant store.Flushed() == f0
      invariant cur == RetryReply(c, tasks, lists, i, cfg)
      invariant attempts == Attempts(|tasks|, i)
    {
      AttemptsStep(|tasks|, i);
      attempts := attempts[i := attempts[i] + 1];
      failures, invalid := RetryTexts(store, tasks[i], lists[i], cfg, cur, failures, invalid);
      cur := RetryList(cur, tasks[i], lists[i], cfg);
    }
  }

  /** One answered batch inside its `try`: the first pass; then, unless an
      extra list raised first, the retry round when tasks are left and the
      flush once the buffer holds `batch_write_size` records. */
  method HandleReply(store: Store, lists: seq<seq<string>>, retry: Reply, batch: seq<Value>, cfg: Setup,
                     ghost c: Counts, parseFailures: nat, invalidScores: nat, batchWriteSize: int, fault: FlushFault)
    returns (failures: nat, invalid: nat, retryPrompts: seq<seq<string>>)
    requires AllPrompted(batch, PromptOf(cfg.template))
    requires Holds(store, c) && parseFailures == c.parseFailures && invalidScores == c.invalidScores
    modifies store
    ensures var r := BatchFold(c, batch, Replied(lists), retry, cfg);
      Holds(store, r) && failures == r.parseFailures && invalid == r.invalidScores
    ensures retryPrompts == RetryPrompts(batch, Replied(lists), cfg)
    ensures fault == NoFault && old(store.outputLog) == old(store.allResults) ==> store.outputLog == store.allResults
  {
    var ls := Answered(lists, batch);
    var tasks := ProcessReply(store, ls, batch, cfg, c);
    ghost var first := FirstReply(c, batch, ls, |ls|, cfg);
    ghost var r := BatchFold(c, batch, Replied(lists), retry, cfg);
    FirstReplyCounters(c, batch, ls, |ls|, cfg);
    failures, invalid, retryPrompts := parseFailures, invalidScores, [];
    if |lists| > |batch| {
      assert r == first;
      return;
    }
    assert tasks == Tasks(batch, lists, cfg);
    if tasks == [] {
      assert r == first;
    } else {
      TasksPrompted(batch, lists, cfg);
      retryPrompts := [Prompts(tasks, PromptOf(cfg.template)).value];
      if retry.Failed? {
        failures := failures + |tasks|;
        assert r == first.(parseFailures := first.parseFailures + |tasks|);
      } else {
        var rl := Answered(retry.lists, tasks);
        var attempts;
        failures, invalid, attempts := RetryRound(store, tasks, rl, cfg, first, failures, invalid);
        ghost var after := RetryReply(first, tasks, rl, |rl|, cfg);
        if |retry.lists| > |tasks| {
          failures := failures + |tasks|;
          assert r == after.(parseFailures := after.parseFailures + |tasks|);
        } else {
          assert r == after;
        }
      }
    }
    if |store.pendingWrite| >= batchWriteSize {
      store.Flush(fault);
    }
  }

  /** Batch `b` of the loop: build its prompts (which may raise) and, when
      the reply came, handle it. */
  method SendBatch(store: Store, items: seq<Value>, k: nat, b: nat, cfg: Setup,
                   replies: seq<Reply>, retries: seq<Reply>, faults: seq<FlushFault>, batchWriteSize: int,
                   ghost c: Counts, parseFailures: nat, invalidScores: nat)
    returns (prompts: Option<seq<string>>, retryPrompts: seq<seq<string>>, failures: nat, invalid: nat)
    requires k > 0
    requires Holds(store, c) && parseFailures == c.parseFailures && invalidScores == c.invalidScores
    modifies store
    ensures prompts == Prompts(Batch(items, k, b), PromptOf(cfg.template))
    ensures prompts.Some? ==>
      var r := BatchFold(c, Batch(items, k, b), ReplyAt(replies, b), ReplyAt(retries, b), cfg);
      Holds(store, r) && failures == r.parseFailures && invalid == r.invalidScores
    ensures prompts.None? ==> Holds(store, c) && failures == parseFailures && invalid == invalidScores
    ensures retryPrompts == RetryPrompts(Batch(items, k, b), ReplyAt(replies, b), cfg)
    ensures FaultAt(faults, b) == NoFault && old(store.outputLog) == old(store.allResults) ==> store.outputLog == store.allResults
  {
    var batch := Batch(items, k, b);
    prompts := Prompts(batch, PromptOf(cfg.template));
    failures, invalid, retryPrompts := parseFailures, invalidScores, [];
    if prompts.Some? {
      var reply := ReplyAt(replies, b);
      if reply.Replied? {
        failures, invalid, retryPrompts :=
          HandleReply(store, reply.lists, ReplyAt(retries, b), batch, cfg, c, parseFailures, invalidScores,
                      batchWriteSize, FaultAt(faults, b));
      }
    }
  }

  /** What the batch loop has sent when it reaches batch `b`: the prompt
      lists and retry requests of the batches before it, and whether the
      run raises is still decided by the batches from `b` on. */
  predicate Sent(items: seq<Value>, k: nat, nb: nat, cfg: Setup, replies: seq<Reply>,
                 requested: seq<seq<string>>, retried: seq<seq<string>>, b: nat)
    requires k > 0
  {
    Prompted(requested, items, k, PromptOf(cfg.template), b) && retried == RetriesUpTo(items, k, cfg, replies, b) &&
    Raises(items, k, PromptOf(cfg.template), nb, 0) == Raises(items, k, PromptOf(cfg.template), nb, b)
  }

  /** One turn of the batch loop: batch `b` is sent and handled; or its
      prompts raise and the loop stops with the counters it has. */
  method Round(store: Store, items: seq<Value>, k: nat, nb: nat, b: nat, cfg: Setup, batchWriteSize: int,
               replies: seq<Reply>, retries: seq<Reply>, faults: seq<FlushFault>,
               ghost cur: Counts, ghost final: Counts, parseFailures: nat, invalidScores: nat,
               requested: seq<seq<string>>, retried: seq<seq<string>>)
    returns (raised: bool, failures: nat, invalid: nat,
             requestedAfter: seq<seq<string>>, retriedAfter: seq<seq<string>>, ghost next: Counts)
    requires k > 0 && b < nb
    requires Holds(store, cur) && parseFailures == cur.parseFailures && invalidScores == cur.invalidScores
    requires RunFold(cur, items, k, cfg, replies, retries, nb, b) == final
    requires Sent(items, k, nb, cfg, replies, requested, retried, b)
    modifies store
    ensures raised ==> next == final && Raises(items, k, PromptOf(cfg.template), nb, 0)
    ensures Holds(store, next) && failures == next.parseFailures && invalid == next.invalidScores
    ensures !raised ==>
      RunFold(next, items, k, cfg, replies, retries, nb, b + 1) == final &&
      Sent(items, k, nb, cfg, replies, requestedAfter, retriedAfter, b + 1)
    ensures FaultAt(faults, b) == NoFault && old(store.outputLog) == old(store.allResults) ==> store.outputLog == store.allResults
  {
    var prompts, again;
    prompts, again, failures, invalid :=
      SendBatch(store, items, k, b, cfg, replies, retries, faults, batchWriteSize, cur, parseFailures, invalidScores);
    RaisesStep(items, k, PromptOf(cfg.template), nb, b);
    if prompts.None? {
      return true, failures, invalid, requested, retried, cur;
    }
    PromptedStep(items, k, PromptOf(cfg.template), b, requested, prompts.value);
    raised, requestedAfter, retriedAfter := false, requested + [prompts.value], retried + again;
    next := BatchFold(cur, Batch(items, k, b), ReplyAt(replies, b), ReplyAt(retries, b), cfg);
  }

  /** The batch loop of `generate` over the truncated implementation list.
      `requested` holds the prompt list of every batch sent, `retried` that
      of every retry request. */
  method RunBatches(store: Store, items: seq<Value>, k: nat, cfg: Setup, batchWriteSize: int,
                    replies: seq<Reply>, retries: seq<Reply>, faults: seq<FlushFault>)
    returns (raised: bool, parseFailures: nat, invalidScores: nat,
             requested: seq<seq<string>>, retried: seq<seq<string>>)
    requires k > 0 && Holds(store, Start) && store.outputLog == []
    modifies store
    ensures var final := RunFold(Start, items, k, cfg, replies, retries, CeilDiv(|items|, k), 0);
      Holds(store, final) && parseFailures == final.parseFailures && invalidScores == final.invalidScores
    ensures raised == Raises(items, k, PromptOf(cfg.template), CeilDiv(|items|, k), 0)
    ensures !raised ==> Sent(items, k, CeilDiv(|items|, k), cfg, replies, requested, retried, CeilDiv(|items|, k))
    ensures NoFaults(faults) ==> store.outputLog == store.allResults
  {
    var nb := CeilDiv(|items|, k);
    ghost var final := RunFold(Start, items, k, cfg, replies, retries, nb, 0);
    ghost var cur := Start;
    raised, parseFailures, invalidScores, requested, retried := false, 0, 0, [], [];
    var b := 0;
    SentNone(items, k, nb, cfg, replies);
    while b < nb
      invariant b <= nb && Holds(store, cur) && parseFailures == cur.parseFailures && invalidScores == cur.invalidScores
      invariant RunFold(cur, items, k, cfg, replies, retries, nb, b) == final
      invariant Sent(items, k, nb, cfg, replies, requested, retried, b)
      invariant NoFaults(faults) ==> store.outputLog == store.allResults
    {
      NoFaultsAt(faults, b);
      raised, parseFailures, invalidScores, requested, retried, cur :=
        Round(store, items, k, nb, b, cfg, batchWriteSize, replies, retries, faults,
              cur, final, parseFailures, invalidScores, requested, retried);
      if raised {
        break;
      }
      b := b + 1;
    }
    if !raised {
      RunFoldDone(cur, items, k, cfg, replies, retries, nb);
    }
  }

  /** Before the first batch nothing was sent. */
  lemma SentNone(items: seq<Value>, k: nat, nb: nat, cfg: Setup, replies: seq<Reply>)
    requires k > 0
    ensures Sent(items, k, nb, cfg, replies, [], [], 0)
  {
    assert BatchesUpTo(items, k, 0) == [];
  }

  /** Past the last batch the fold leaves the counts alone and nothing raises. */
  lemma RunFoldDone(c: Counts, items: seq<Value>, k: nat, cfg: Setup, replies: seq<Reply>, retries: seq<Reply>, nb: nat)
    requires k > 0
    ensures RunFold(c, items, k, cfg, replies, retries, nb, nb) == c
    ensures !Raises(items, k, PromptOf(cfg.template), nb, nb)
  {
  }

  /** The part of `generate` after the early returns: batches over the
      non-empty list of unrated implementations, then the final flush. */
  method RunItems(items: seq<Value>, maxConcurrent: nat, cfg: Setup, batchWriteSize: int, existing: set<string>,
                  replies: seq<Reply>, retries: seq<Reply>, faults: seq<FlushFault>, finalFault: FlushFault)
    returns (raised: bool, results: seq<Record>, outputLog: seq<Record>, hashLog: seq<string>,
             parseFailures: nat, invalidScores: nat, requested: seq<seq<string>>, retried: seq<seq<string>>)
    requires maxConcurrent > 0 && forall v :: v in items ==> Unseen(v, existing)
    ensures Raises(items, maxConcurrent, PromptOf(cfg.template), CeilDiv(|items|, maxConcurrent), 0) ==> raised
    ensures raised ==> Raises(items, maxConcurrent, PromptOf(cfg.template), CeilDiv(|items|, maxConcurrent), 0) || finalFault != NoFault
    ensures !raised ==>
      var final := RunFold(Start, items, maxConcurrent, cfg, replies, retries, CeilDiv(|items|, maxConcurrent), 0);
      results == final.accepted && parseFailures == final.parseFailures && invalidScores == final.invalidScores &&
      AllPrompted(items, PromptOf(cfg.template)) && Concat(requested) == Prompts(items, PromptOf(cfg.template)).value &&
      retried == RetriesUpTo(items, maxConcurrent, cfg, replies, CeilDiv(|items|, maxConcurrent))
    ensures !raised ==> forall r :: r in results ==> Fits(r, cfg, existing)
    ensures !raised ==> hashLog == Uids(results) && IsSubseq(results, outputLog)
    ensures !raised && NoFaults(faults) ==> outputLog == results
    ensures forall i :: 0 <= i < |hashLog| ==> hashLog[i] !in existing
    ensures HashesRecorded(hashLog, outputLog)
  {
    var store := new Store(existing);
    raised, parseFailures, invalidScores, requested, retried :=
      RunBatches(store, items, maxConcurrent, cfg, batchWriteSize, replies, retries, faults);
    if !raised {
      PromptedAll(requested, items, maxConcurrent, PromptOf(cfg.template));
    }
    ghost var final := RunFold(Start, items, maxConcurrent, cfg, replies, retries, CeilDiv(|items|, maxConcurrent), 0);
    RunFoldFits(Start, items, maxConcurrent, cfg, replies, retries, CeilDiv(|items|, maxConcurrent), 0, existing);
    ghost var flushed := store.allResults;
    assert forall r :: r in flushed ==> r in final.accepted;
    if !raised {
      var ok := store.FinalFlush(finalFault);
      raised := !ok;
    }
    results := store.allResults;
    outputLog := store.outputLog;
    hashLog := store.hashLog;
    assert results == flushed || results == final.accepted;
    HashesHaveRecords(results, outputLog, hashLog);
    forall i | 0 <= i < |hashLog|
      ensures hashLog[i] !in existing
    {
      assert results[i] in final.accepted;
    }
  }

  /** `generate(input_file, output_dir, prompt_template, num_samples, ...,
      batch_write_size, problem_key, code_key, function_name_key, uid_key,
      source_key, validate_scores, min_score, max_score)`. The input file
      is given as its lines (`None` when it does not exist) and the hash
      file as its lines (none when it does not exist); `max_concurrent`
      is the client's concurrency limit, and a limit of 0 makes the batch
      count raise `ZeroDivisionError`. `raised` says that `generate`
      raised: while loading or filtering, while building the prompts of a
      batch, or in the final flush. */
  method Generate(file: Option<seq<string>>, parse: string -> Option<Value>, keys: Keys, hashLines: seq<string>,
                  cfg: Setup, numSamples: Option<int>, maxConcurrent: nat, batchWriteSize: int,
                  replies: seq<Reply>, retries: seq<Reply>, faults: seq<FlushFault>, finalFault: FlushFault)
    returns (raised: bool, results: seq<Record>, outputLog: seq<Record>, hashLog: seq<string>,
             parseFailures: nat, invalidScores: nat, requested: seq<seq<string>>, retried: seq<seq<string>>)
    ensures var input := Input(file, parse, keys, ExistingHashes(hashLines), numSamples);
      input.None? ==> raised && outputLog == [] && hashLog == [] && requested == []
    ensures var input := Input(file, parse, keys, ExistingHashes(hashLines), numSamples);
      input == Some([]) ==> !raised && results == [] && outputLog == [] && hashLog == [] && requested == []
    ensures var input := Input(file, parse, keys, ExistingHashes(hashLines), numSamples);
      input.Some? && input.value != [] && maxConcurrent == 0 ==> raised && outputLog == [] && hashLog == [] && requested == []
    ensures var input := Input(file, parse, keys, ExistingHashes(hashLines), numSamples);
      input.Some? && maxConcurrent > 0 ==>
      var items := input.value;
      (Raises(items, maxConcurrent, PromptOf(cfg.template), CeilDiv(|items|, maxConcurrent), 0) ==> raised) &&
      (raised ==> Raises(items, maxConcurrent, PromptOf(cfg.template), CeilDiv(|items|, maxConcurrent), 0) || finalFault != NoFault)
    ensures var input := Input(file, parse, keys, ExistingHashes(hashLines), numSamples);
      !raised && input.Some? && input.value != [] ==>
      var items := input.value;
      maxConcurrent > 0 &&
      var final := RunFold(Start, items, maxConcurrent, cfg, replies, retries, CeilDiv(|items|, maxConcurrent), 0);
      results == final.accepted && parseFailures == final.parseFailures && invalidScores == final.invalidScores &&
      AllPrompted(items, PromptOf(cfg.template)) && Concat(requested) == Prompts(items, PromptOf(cfg.template)).value
    ensures !raised ==> forall r :: r in results ==> Fits(r, cfg, ExistingHashes(hashLines))
    ensures !raised ==> hashLog == Uids(results) && IsSubseq(results, outputLog)
    ensures !raised && NoFaults(faults) ==> outputLog == results
    ensures forall i :: 0 <= i < |hashLog| ==> hashLog[i] !in ExistingHashes(hashLines)
    ensures HashesRecorded(hashLog, outputLog)
  {
    var existing := ExistingHashes(hashLines);
    var impls := LoadImplementations(file, parse, keys);
    if impls.None? {
      return true, [], [], [], 0, 0, [], [];
    }
    var kept := Unrated(impls.value, existing);
    if kept.None? {
      return true, [], [], [], 0, 0, [], [];
    }
    var items := Take(kept.value, numSamples);
    if items == [] {
      return false, [], [], [], 0, 0, [], [];
    }
    if maxConcurrent == 0 {
      return true, [], [], [], 0, 0, [], [];
    }
    FilterBeforeTruncation(file, parse, keys, existing, numSamples);
    raised, results, outputLog, hashLog, parseFailures, invalidScores, requested, retried :=
      RunItems(items, maxConcurrent, cfg, batchWriteSize, existing, replies, retries, faults, finalFault);
  }
}
