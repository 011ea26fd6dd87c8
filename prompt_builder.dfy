/** evoselfcode/core/prompt_builder.py: function-name prompts read from the
    `prompts` and `api.fim` configuration sections, and the parser that
    splits a completion into a description and a function name. */
module PromptBuilding {
  import opened Text
  import opened Json
  import opened CoreConfig

  const DefaultFuncnamePrefix: string := "This is an algorithm function.\n\ndef "
  const DefaultFuncnameSuffix: string := "():\n"
  const DefaultPrefixToken: string := "<|fim_prefix|>"
  const DefaultSuffixToken: string := "<|fim_suffix|>"
  const DefaultMiddleToken: string := "<|fim_middle|>"
  const FunctionNameMarker: string := "Function name:"

  /** `v.get(key, {})` on a value that must be a dict; `None` where Python
      raises `AttributeError`. */
  function SectionOf(v: Value, key: string): (r: Option<map<string, Value>>)
    ensures !v.Dict? ==> r.None?
    ensures v.Dict? ==> r == SubDict(v.fields, key)
  {
    if v.Dict? then SubDict(v.fields, key) else None
  }

  /** The text a setting contributes to an f-string: `str(d.get(key, default))`. */
  function Setting(d: map<string, Value>, key: string, default: string): (r: Option<string>)
    ensures key !in d ==> r == Some(default)
    ensures key in d ==> r == PyStr(d[key])
  {
    if key !in d then Some(default) else PyStr(d[key])
  }

  /** The two sections `PromptBuilder.__init__` keeps. */
  datatype PromptBuilder = PromptBuilder(promptsCfg: Value, fimCfg: Value)
  {
    /** The `funcname.fim` prompt section, or `None` where one of the `.get`
        calls that reach it, or the `.get` on the token section, raises. */
    function FimSection(): (r: Option<map<string, Value>>)
      ensures r.Some? <==> (promptsCfg.Dict? && fimCfg.Dict? && SubDict(promptsCfg.fields, "funcname").Some?
        && SubDict(SubDict(promptsCfg.fields, "funcname").value, "fim").Some?)
      ensures r.Some? ==> r == SubDict(SubDict(promptsCfg.fields, "funcname").value, "fim")
    {
      var funcname := SectionOf(promptsCfg, "funcname");
      if funcname.None? || !fimCfg.Dict? then None else SubDict(funcname.value, "fim")
    }

    /** `build_funcname_fim()`: prefix token, prefix, suffix token, suffix and
        middle token, each the configured value as `str()` writes it or its
        default. `None` stands for the `AttributeError` of a section that is
        not a dict, and for a list or dict setting, whose text is not modelled. */
    function BuildFuncnameFim(): (r: Option<string>)
      ensures FimSection().None? ==> r.None?
      ensures FimSection().Some? ==>
        var fim := FimSection().value;
        var prefix := Setting(fim, "prefix", DefaultFuncnamePrefix);
        var suffix := Setting(fim, "suffix", DefaultFuncnameSuffix);
        var prefixToken := Setting(fimCfg.fields, "prefix_token", DefaultPrefixToken);
        var suffixToken := Setting(fimCfg.fields, "suffix_token", DefaultSuffixToken);
        var middleToken := Setting(fimCfg.fields, "middle_token", DefaultMiddleToken);
        (r.Some? <==> prefix.Some? && suffix.Some? && prefixToken.Some? && suffixToken.Some? && middleToken.Some?) &&
        (r.Some? ==> r.value == prefixToken.value + prefix.value + suffixToken.value + suffix.value + middleToken.value)
    {
      var fim := FimSection();
      if fim.None? then None
      else
        var prefix := Setting(fim.value, "prefix", DefaultFuncnamePrefix);
        var suffix := Setting(fim.value, "suffix", DefaultFuncnameSuffix);
        var prefixToken := Setting(fimCfg.fields, "prefix_token", DefaultPrefixToken);
        var suffixToken := Setting(fimCfg.fields, "suffix_token", DefaultSuffixToken);
        var middleToken := Setting(fimCfg.fields, "middle_token", DefaultMiddleToken);
        if prefix.None? || suffix.None? || prefixToken.None? || suffixToken.None? || middleToken.None? then None
        else Some(prefixToken.value + prefix.value + suffixToken.value + suffix.value + middleToken.value)
    }

    /** `build_funcname_l2r()`: the configured prompt, or the default. */
    function BuildFuncnameL2r(): (r: Option<Value>)
      ensures r.Some? <==> (promptsCfg.Dict? && SubDict(promptsCfg.fields, "funcname").Some?
        && SubDict(SubDict(promptsCfg.fields, "funcname").value, "l2r").Some?)
      ensures r.Some? ==> var l2r := SubDict(SubDict(promptsCfg.fields, "funcname").value, "l2r").value;
        r.value == if "prompt" in l2r then l2r["prompt"] else Str(DefaultFuncnamePrefix)
    {
      var funcname := SectionOf(promptsCfg, "funcname");
      if funcname.None? then None
      else
        var l2r := SubDict(funcname.value, "l2r");
        if l2r.None? then None else Some(GetOr(l2r.value, "prompt", Str(DefaultFuncnamePrefix)))
    }
  }

  /** `PromptBuilder(config)`: `None` where `get_section("api").get(...)`
      raises because `api` is not a dict. */
  function NewPromptBuilder(config: map<string, Value>): (pb: Option<PromptBuilder>)
    ensures pb.Some? <==> ("api" !in config || config["api"].Dict?)
    ensures pb.Some? ==> pb.value.promptsCfg == (if "prompts" in config then config["prompts"] else Dict(map[]))
  {
    SplitWithoutSep("api", '.');
    SplitWithoutSep("prompts", '.');
    var prompts := Lookup(Dict(config), Split("prompts", '.'), Dict(map[]));
    var api := Lookup(Dict(config), Split("api", '.'), Dict(map[]));
    if !api.Dict? then None
    else Some(PromptBuilder(prompts, GetOr(api.fields, "fim", Dict(map[]))))
  }

  /** A character Python's `ch.isalnum() or ch == '_'` accepts. */
  predicate IsNameChar(c: char) {
    IsAlnum(c) || c == '_'
  }

  /** Length of the longest prefix of `s` made of name characters. */
  function NameLength(s: string): (n: nat)
    ensures n <= |s|
    ensures forall i :: 0 <= i < n ==> IsNameChar(s[i])
    ensures n < |s| ==> !IsNameChar(s[n])
  {
    if s == [] || !IsNameChar(s[0]) then 0 else 1 + NameLength(s[1..])
  }

  /** The name `extract_funcname_and_desc` reads from the text after the marker. */
  function NameAfterMarker(funcPart: string): string {
    if StartsWith(funcPart, "def ") then
      var namePart := Strip(funcPart[4..]);
      namePart[..NameLength(namePart)]
    else []
  }

  /** The `for i, ch in enumerate(name_part)` scan: stops at the first
      character that is neither alphanumeric nor `_`. */
  method ScanName(namePart: string) returns (funcName: string)
    ensures funcName == namePart[..NameLength(namePart)]
  {
    funcName := namePart;
    var k := 0;
    while k < |namePart|
      invariant 0 <= k <= |namePart|
      invariant forall j :: 0 <= j < k ==> IsNameChar(namePart[j])
      invariant funcName == namePart
    {
      if !IsNameChar(namePart[k]) {
        funcName := namePart[..k];
        break;
      }
      k := k + 1;
    }
  }

  /** `extract_funcname_and_desc(text, mode)`; both modes parse alike. The
      name is scanned character by character up to the first character that
      is neither alphanumeric nor `_`. */
  method ExtractFuncnameAndDesc(text: string) returns (funcName: string, description: string)
    ensures Strip(text) == [] ==> funcName == [] && description == []
    ensures !Contains(Strip(text), FunctionNameMarker) ==> funcName == [] && description == Strip(text)
    ensures Contains(Strip(text), FunctionNameMarker) ==>
      var t := Strip(text);
      var i := Find(t, FunctionNameMarker).value;
      description == Strip(t[..i]) && funcName == NameAfterMarker(Strip(t[i + |FunctionNameMarker|..]))
    ensures forall j :: 0 <= j < |funcName| ==> IsNameChar(funcName[j])
  {
    var t := Strip(text);
    if t == [] {
      return [], [];
    }
    funcName := [];
    description := [];
    var at := Find(t, FunctionNameMarker);
    if at.Some? {
      var i := at.value;
      description := Strip(t[..i]);
      var funcPart := Strip(t[i + |FunctionNameMarker|..]);
      if StartsWith(funcPart, "def ") {
        funcName := ScanName(Strip(funcPart[4..]));
      }
    } else {
      description := t;
    }
  }

  /** A non-empty name comes only from a part after the marker that starts with `def `. */
  lemma NameNeedsDef(funcPart: string)
    requires NameAfterMarker(funcPart) != []
    ensures StartsWith(funcPart, "def ")
  {
  }

  /** The name is the longest run of name characters after `def `: it
      either uses up the text or stops just before a non-name character. */
  lemma NameIsLongestPrefix(funcPart: string)
    requires StartsWith(funcPart, "def ")
    ensures var namePart := Strip(funcPart[4..]);
      var name := NameAfterMarker(funcPart);
      name <= namePart && (|name| == |namePart| || !IsNameChar(namePart[|name|]))
  {
  }

  /** With both sections usable, the prompt is built whenever no setting is
      a list or a dict: a number, boolean or `null` is written as `str()`
      writes it rather than rejected. */
  lemma FimBuiltFromScalars(pb: PromptBuilder)
    requires pb.FimSection().Some?
    requires forall key :: key in {"prefix", "suffix"} && key in pb.FimSection().value ==>
      !pb.FimSection().value[key].List? && !pb.FimSection().value[key].Dict?
    requires forall key :: key in {"prefix_token", "suffix_token", "middle_token"} && key in pb.fimCfg.fields ==>
      !pb.fimCfg.fields[key].List? && !pb.fimCfg.fields[key].Dict?
    ensures pb.BuildFuncnameFim().Some?
  {
    var fim := pb.FimSection().value;
    assert "prefix" in {"prefix", "suffix"} && "suffix" in {"prefix", "suffix"};
    assert "prefix_token" in {"prefix_token", "suffix_token", "middle_token"};
    assert "suffix_token" in {"prefix_token", "suffix_token", "middle_token"};
    assert "middle_token" in {"prefix_token", "suffix_token", "middle_token"};
  }

  /** With nothing configured under `funcname.fim` and `api.fim`, the prompt
      is the five defaults in order, whatever else the sections hold. */
  lemma FimDefaults(pb: PromptBuilder)
    requires pb.FimSection().Some?
    requires "prefix" !in pb.FimSection().value && "suffix" !in pb.FimSection().value
    requires "prefix_token" !in pb.fimCfg.fields && "suffix_token" !in pb.fimCfg.fields
      && "middle_token" !in pb.fimCfg.fields
    ensures pb.BuildFuncnameFim() ==
      Some(DefaultPrefixToken + DefaultFuncnamePrefix + DefaultSuffixToken + DefaultFuncnameSuffix + DefaultMiddleToken)
  {
  }
}
