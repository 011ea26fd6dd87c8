/** evoselfcode/datagen/prompts.py: the function-name prompts read from a
    `prompts` configuration dict, and the extraction of a function name from
    a completion. */
module Prompts {
  import opened Text
  import opened Json
  import PromptBuilding

  datatype Mode = FIM | L2R

  /** `build_funcname_prompt_fim(config)`: the configured `(prefix, suffix)`
      under `funcname.fim`, each falling back to its default; `None` where a
      section on the way is not a dict. */
  function BuildFuncnamePromptFim(config: map<string, Value>): (r: Option<(Value, Value)>)
    ensures r.Some? <==> (SubDict(config, "funcname").Some? && SubDict(SubDict(config, "funcname").value, "fim").Some?)
    ensures r.Some? ==> var fim := SubDict(SubDict(config, "funcname").value, "fim").value;
      r.value.0 == (if "prefix" in fim then fim["prefix"] else Str(PromptBuilding.DefaultFuncnamePrefix)) &&
      r.value.1 == (if "suffix" in fim then fim["suffix"] else Str(PromptBuilding.DefaultFuncnameSuffix))
  {
    var funcname := SubDict(config, "funcname");
    if funcname.None? then None
    else
      var fim := SubDict(funcname.value, "fim");
      if fim.None? then None
      else Some((GetOr(fim.value, "prefix", Str(PromptBuilding.DefaultFuncnamePrefix)),
                 GetOr(fim.value, "suffix", Str(PromptBuilding.DefaultFuncnameSuffix))))
  }

  /** `build_funcname_prompt_l2r(config)`: the configured `funcname.l2r.prompt`, or the default. */
  function BuildFuncnamePromptL2r(config: map<string, Value>): (r: Option<Value>)
    ensures r.Some? <==> (SubDict(config, "funcname").Some? && SubDict(SubDict(config, "funcname").value, "l2r").Some?)
    ensures r.Some? ==> var l2r := SubDict(SubDict(config, "funcname").value, "l2r").value;
      r.value == if "prompt" in l2r then l2r["prompt"] else Str(PromptBuilding.DefaultFuncnamePrefix)
  {
    var funcname := SubDict(config, "funcname");
    if funcname.None? then None
    else
      var l2r := SubDict(funcname.value, "l2r");
      if l2r.None? then None else Some(GetOr(l2r.value, "prompt", Str(PromptBuilding.DefaultFuncnamePrefix)))
  }

  /** Length of the run of non-whitespace characters `s` starts with. */
  function NonSpaceRun(s: string): (n: nat)
    ensures n <= |s|
    ensures forall i :: 0 <= i < n ==> !IsSpace(s[i])
    ensures n < |s| ==> IsSpace(s[n])
  {
    if s == [] || IsSpace(s[0]) then 0 else 1 + NonSpaceRun(s[1..])
  }

  /** `s.split()[0]`: the first whitespace-delimited token; `None` for the
      `IndexError` of a blank string. */
  function FirstToken(s: string): (r: Option<string>)
    ensures r.None? <==> IsBlank(s)
    ensures r.Some? ==> r.value != [] && forall i :: 0 <= i < |r.value| ==> !IsSpace(r.value[i])
    ensures r.Some? ==> r.value <= LStrip(s) && (|r.value| == |LStrip(s)| || IsSpace(LStrip(s)[|r.value|]))
  {
    var t := LStrip(s);
    LStripEmptyIffBlank(s);
    LeadingSpacesLongest(s);
    if t == [] then None else Some(t[..NonSpaceRun(t)])
  }

  /** The stripped completion, less a leading `def ` (and the whitespace
      after it) in L2R mode. */
  function Unprefixed(text: string, mode: Mode): string {
    var t := Strip(text);
    if mode == L2R && StartsWith(t, "def ") then Strip(t[4..]) else t
  }

  /** `text.split("(")[0]` on the unprefixed completion: everything before
      its first `(`, or all of it when there is none. */
  function Head(text: string, mode: Mode): (h: string)
    ensures '(' !in h
    ensures h <= Unprefixed(text, mode)
    ensures h == Unprefixed(text, mode) || Unprefixed(text, mode)[|h|] == '('
  {
    var t' := Unprefixed(text, mode);
    assert Split(t', '(')[0] == match IndexOf(t', '(') case None => t' case Some(i) => t'[..i];
    Split(t', '(')[0]
  }

  /** `extract_funcname_from_completion(text, mode)`: the first token of the
      stripped text before its first `(`; in L2R mode a leading `def ` is
      removed first. `None` stands for the `IndexError` raised when only
      whitespace precedes the `(`. */
  function ExtractFuncnameFromCompletion(text: string, mode: Mode): (r: Option<string>)
    ensures r.Some? ==> r.value != [] && '(' !in r.value
    ensures r.Some? ==> forall i :: 0 <= i < |r.value| ==> !IsSpace(r.value[i])
    ensures r.Some? ==> var h := LStrip(Head(text, mode));
      r.value <= h && (|r.value| == |h| || IsSpace(h[|r.value|]))
  {
    var before := Head(text, mode);
    var r := FirstToken(before);
    assert r.Some? ==> '(' !in r.value by {
      if r.Some? {
        assert r.value <= LStrip(before);
        assert forall i :: 0 <= i < |r.value| ==> r.value[i] in before;
      }
    }
    r
  }

  /** A completion in L2R mode: `def foo(x):` names `foo`. */
  lemma ExtractFromDefLine()
    ensures ExtractFuncnameFromCompletion("def foo(x):", L2R) == Some("foo")
  {
    HeadOfDefLine();
    TokenOfWord("foo");
  }

  /** A non-empty string without whitespace is its own first token. */
  lemma TokenOfWord(w: string)
    requires w != [] && forall i :: 0 <= i < |w| ==> !IsSpace(w[i])
    ensures FirstToken(w) == Some(w)
  {
    assert LeadingSpaces(w) == 0;
    assert w[0..] == w;
    NoSpaceRun(w);
    assert w[..|w|] == w;
  }

  /** A string without whitespace is one run of non-whitespace. */
  lemma {:induction false} NoSpaceRun(w: string)
    requires forall i :: 0 <= i < |w| ==> !IsSpace(w[i])
    ensures NonSpaceRun(w) == |w|
    decreases |w|
  {
    if w != [] {
      NoSpaceRun(w[1..]);
    }
  }

  /** `(a + "(" + b).split("(")[0]` is `a` when `a` has no `(`. */
  lemma SplitAtFirst(a: string, b: string, c: char)
    requires c !in a
    ensures Split(a + [c] + b, c)[0] == a
  {
    var s := a + [c] + b;
    assert s[|a|] == c;
    var k := IndexOf(s, c);
    assert forall j :: 0 <= j < |a| ==> s[j] == a[j];
    assert k.Some? && k.value == |a|;
    assert s[..|a|] == a;
  }

  /** The head of `def foo(x):` in L2R mode is `foo`. */
  lemma HeadOfDefLine()
    ensures Head("def foo(x):", L2R) == "foo"
  {
    UnprefixedDefLine();
    SplitAtFirst("foo", "x):", '(');
  }

  /** In L2R mode `def foo(x):` loses its `def `. */
  lemma UnprefixedDefLine()
    ensures Unprefixed("def foo(x):", L2R) == "foo" + ['('] + "x):"
  {
    var text := "def foo(x):";
    assert LeadingSpaces(text) == 0 && TrailingSpaces(text) == 0;
    assert Strip(text) == text;
    var rest := "foo(x):";
    assert text[4..] == rest;
    assert LeadingSpaces(rest) == 0 && TrailingSpaces(rest) == 0;
  }

  /** The function fails exactly when nothing but whitespace precedes the first `(`. */
  lemma ExtractFailsIffBlankHead(text: string, mode: Mode)
    ensures ExtractFuncnameFromCompletion(text, mode).None? <==> IsBlank(Head(text, mode))
  {
  }
}
