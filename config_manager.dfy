/** The configuration store of evoselfcode/core/config_manager.py: dotted-path
    reads and writes over a nested dictionary, and the deep merge that layers
    one configuration over another. */
module CoreConfig {
  import opened Text
  import opened Json

  /** The dictionary `_deep_merge(base, override)` builds: every key of either
      side; where both sides hold a dict the two are merged recursively,
      otherwise the override's value wins. */
  function Merged(base: map<string, Value>, over: map<string, Value>): (r: map<string, Value>)
    ensures r.Keys == base.Keys + over.Keys
    ensures forall k :: k in base && k !in over ==> r[k] == base[k]
    ensures forall k :: k in over && !(k in base && base[k].Dict? && over[k].Dict?) ==> r[k] == over[k]
    ensures forall k :: k in over && k in base && base[k].Dict? && over[k].Dict? ==>
      r[k] == Dict(Merged(base[k].fields, over[k].fields))
    decreases Dict(over)
  {
    map k | k in base.Keys + over.Keys ::
      if k in over then
        (if k in base && base[k].Dict? && over[k].Dict? then Dict(Merged(base[k].fields, over[k].fields)) else over[k])
      else base[k]
  }

  /** `ConfigManager._deep_merge`: copies `base`, then assigns each key of
      `override` in turn, recursing where both values are dicts. The inputs
      are values, so `base` is left as it was. */
  method DeepMerge(base: map<string, Value>, over: map<string, Value>) returns (result: map<string, Value>)
    ensures result == Merged(base, over)
    decreases Dict(over), 1
  {
    result := base;
    var todo := over.Keys;
    while todo != {}
      invariant todo <= over.Keys
      invariant MergedExcept(base, over, result, todo)
      decreases todo
    {
      var key :| key in todo;
      result := MergeKey(base, over, result, todo, key);
      todo := todo - {key};
    }
    MergedExceptNone(base, over, result);
  }

  /** `result` is the merge on every key of `over` outside `todo`, and
      `base` elsewhere. */
  ghost predicate MergedExcept(base: map<string, Value>, over: map<string, Value>,
                               result: map<string, Value>, todo: set<string>)
  {
    && result.Keys == base.Keys + (over.Keys - todo)
    && forall k :: k in result ==>
         result[k] == if k in over && k !in todo then Merged(base, over)[k] else base[k]
  }

  /** One assignment of the merge loop: `key` takes its merged value. */
  method MergeKey(base: map<string, Value>, over: map<string, Value>, result: map<string, Value>,
                  todo: set<string>, key: string)
    returns (result': map<string, Value>)
    requires key in todo && todo <= over.Keys
    requires MergedExcept(base, over, result, todo)
    ensures MergedExcept(base, over, result', todo - {key})
    decreases Dict(over), 0
  {
    var value := over[key];
    assert key in result <==> key in base;
    assert key in result ==> result[key] == base[key];
    if key in result && result[key].Dict? && value.Dict? {
      var sub := DeepMerge(result[key].fields, value.fields);
      assert Dict(sub) == Merged(base, over)[key];
      result' := result[key := Dict(sub)];
    } else {
      assert value == Merged(base, over)[key];
      result' := result[key := value];
    }
  }

  /** With nothing left to assign, the loop's map is the merge. */
  lemma MergedExceptNone(base: map<string, Value>, over: map<string, Value>, result: map<string, Value>)
    requires MergedExcept(base, over, result, {})
    ensures result == Merged(base, over)
  {
  }

  /** Merging a configuration with itself changes nothing. */
  lemma {:induction false} MergeSelf(a: map<string, Value>)
    ensures Merged(a, a) == a
    decreases Dict(a)
  {
    forall k | k in a && a[k].Dict?
      ensures Merged(a, a)[k] == a[k]
    {
      MergeSelf(a[k].fields);
    }
  }

  /** Laying the same override on twice is the same as laying it on once. */
  lemma {:induction false} MergeOverrideIdempotent(a: map<string, Value>, b: map<string, Value>)
    ensures Merged(Merged(a, b), b) == Merged(a, b)
    decreases Dict(b)
  {
    var ab := Merged(a, b);
    forall k | k in b && k in ab && ab[k].Dict? && b[k].Dict?
      ensures Merged(ab, b)[k] == ab[k]
    {
      if k in a && a[k].Dict? {
        MergeOverrideIdempotent(a[k].fields, b[k].fields);
      } else {
        MergeSelf(b[k].fields);
      }
    }
  }

  /** Deep merge is not associative: a scalar in the middle layer hides the
      bottom layer's dict from a left-to-right fold, not from a right fold. */
  lemma MergeNotAssociative()
    ensures var a, b, c := map["k" := Dict(map["x" := Int(1)])], map["k" := Int(0)], map["k" := Dict(map["y" := Int(2)])];
      Merged(Merged(a, b), c) != Merged(a, Merged(b, c))
  {
    var x := map["x" := Int(1)];
    var y := map["y" := Int(2)];
    var a := map["k" := Dict(x)];
    var b := map["k" := Int(0)];
    var c := map["k" := Dict(y)];
    var ab := Merged(a, b);
    assert ab["k"] == Int(0);
    var left := Merged(ab, c);
    assert left["k"] == Dict(y);
    var bc := Merged(b, c);
    assert bc["k"] == Dict(y);
    var right := Merged(a, bc);
    assert right["k"] == Dict(Merged(x, y));
    assert "x" in Merged(x, y) && "x" !in y;
    assert left["k"] != right["k"];
  }

  /** The value `get` finds by following `parts` from `cur`: the default as
      soon as a segment is missing or a non-dict is met. */
  function Lookup(cur: Value, parts: seq<string>, default: Value): Value
    decreases |parts|
  {
    if parts == [] then cur
    else match cur
      case Dict(m) => if parts[0] in m then Lookup(m[parts[0]], parts[1..], default) else default
      case _ => default
  }

  /** The walk shared by `ConfigManager.get` and `RunConfig.get`: split the
      dotted key and descend one segment at a time. */
  method WalkPath(config: map<string, Value>, keyPath: string, default: Value) returns (r: Value)
    ensures r == Lookup(Dict(config), Split(keyPath, '.'), default)
  {
    var parts := Split(keyPath, '.');
    var current := Dict(config);
    var i := 0;
    while i < |parts|
      invariant 0 <= i <= |parts|
      invariant Lookup(current, parts[i..], default) == Lookup(Dict(config), parts, default)
    {
      var part := parts[i];
      if !current.Dict? || part !in current.fields {
        return default;
      }
      assert parts[i..][1..] == parts[i + 1..];
      current := current.fields[part];
      i := i + 1;
    }
    return current;
  }

  /** The configuration `set(key_path, value)` leaves behind, or `None` for
      the `TypeError` Python raises when a prefix of the path holds a
      non-dict (nothing has been changed by then). Missing prefixes become
      empty dicts. */
  function SetPath(m: map<string, Value>, parts: seq<string>, value: Value): Option<map<string, Value>>
    requires |parts| >= 1
    decreases |parts|
  {
    if |parts| == 1 then Some(m[parts[0] := value])
    else
      var child := if parts[0] in m then m[parts[0]] else Dict(map[]);
      if !child.Dict? then None
      else match SetPath(child.fields, parts[1..], value)
        case None => None
        case Some(sub) => Some(m[parts[0] := Dict(sub)])
  }

  /** After a successful `set`, `get` on the same path returns the new value,
      and the other top-level keys keep their values. */
  lemma {:induction false} SetThenGet(m: map<string, Value>, parts: seq<string>, value: Value, default: Value)
    requires |parts| >= 1 && SetPath(m, parts, value).Some?
    ensures Lookup(Dict(SetPath(m, parts, value).value), parts, default) == value
    ensures forall k :: k in m && k != parts[0] ==> k in SetPath(m, parts, value).value && SetPath(m, parts, value).value[k] == m[k]
    decreases |parts|
  {
    if |parts| > 1 {
      var child := if parts[0] in m then m[parts[0]] else Dict(map[]);
      SetThenGet(child.fields, parts[1..], value, default);
    }
  }

  /** `set` only fails where a prefix of the path holds something other than
      a dict: on a path whose every prefix is a dict or missing it succeeds. */
  lemma {:induction false} SetSucceedsOnDictPrefixes(m: map<string, Value>, parts: seq<string>, value: Value)
    requires |parts| >= 1
    requires PrefixesAreDicts(m, parts)
    ensures SetPath(m, parts, value).Some?
    decreases |parts|
  {
    if |parts| > 1 {
      var child := if parts[0] in m then m[parts[0]] else Dict(map[]);
      SetSucceedsOnDictPrefixes(child.fields, parts[1..], value);
    }
  }

  /** Every proper prefix of `parts` is either missing or a dict. */
  predicate PrefixesAreDicts(m: map<string, Value>, parts: seq<string>)
    decreases |parts|
  {
    |parts| <= 1 ||
    (parts[0] !in m) ||
    (m[parts[0]].Dict? && PrefixesAreDicts(m[parts[0]].fields, parts[1..]))
  }

  /** `set` raises exactly when some proper prefix holds a non-dict. */
  lemma {:induction false} SetFailsOnScalarPrefix(m: map<string, Value>, parts: seq<string>, value: Value)
    requires |parts| >= 1
    requires !PrefixesAreDicts(m, parts)
    ensures SetPath(m, parts, value).None?
    decreases |parts|
  {
    if m[parts[0]].Dict? {
      SetFailsOnScalarPrefix(m[parts[0]].fields, parts[1..], value);
    }
  }

  /** `ConfigManager`: owns one nested configuration dictionary. */
  class ConfigManager {
    var config: map<string, Value>

    /** `ConfigManager(config_dict)`: a missing or empty dict gives `{}`. */
    constructor (configDict: Option<map<string, Value>>)
      ensures config == if configDict.Some? then configDict.value else map[]
    {
      config := if configDict.Some? then configDict.value else map[];
    }

    /** `get(key_path, default)` */
    method Get(keyPath: string, default: Value) returns (r: Value)
      ensures r == Lookup(Dict(config), Split(keyPath, '.'), default)
    {
      r := WalkPath(config, keyPath, default);
    }

    /** `get_section(section)`: the same walk with `{}` as the default. */
    method GetSection(section: string) returns (r: Value)
      ensures r == Lookup(Dict(config), Split(section, '.'), Dict(map[]))
      ensures |Split(section, '.')| == 1 && section !in config ==> r == Dict(map[])
    {
      r := WalkPath(config, section, Dict(map[]));
    }

    /** `set(key_path, value)`: `ok` is false where Python raises. */
    method Set(keyPath: string, value: Value) returns (ok: bool)
      modifies this
      ensures ok == SetPath(old(config), Split(keyPath, '.'), value).Some?
      ensures ok ==> config == SetPath(old(config), Split(keyPath, '.'), value).value
      ensures !ok ==> config == old(config)
    {
      var r := SetPath(config, Split(keyPath, '.'), value);
      if r.Some? {
        config := r.value;
        ok := true;
      } else {
        ok := false;
      }
    }

    /** `merge(other)`: a new manager over `_deep_merge(self, other)`;
        neither operand changes. */
    method Merge(other: ConfigManager) returns (merged: ConfigManager)
      ensures fresh(merged)
      ensures merged.config == Merged(config, other.config)
    {
      var m := DeepMerge(config, other.config);
      merged := new ConfigManager(Some(m));
    }
  }
}
