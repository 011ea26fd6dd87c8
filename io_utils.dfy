/** evoselfcode/io_utils.py: turning a raw JSONL record into a `Sample`. */
module IoUtils {
  import opened Text
  import opened Json

  /** The keys `normalize_record` reads; every other key goes into `meta`. */
  const ReservedKeys: set<string> := {"prompt", "description", "docstring", "code", "solution"}

  /** `Sample(prompt, code, meta)`; Python does not check the field types,
      so `prompt` and `code` are whatever the `or`-chains produced. */
  datatype Sample = Sample(prompt: Value, code: Value, meta: Option<map<string, Value>>)

  /** `obj.get(k1) or obj.get(k2) or ... or default`: the first truthy value
      among the keys, else `default`. */
  function FirstTruthy(obj: map<string, Value>, keys: seq<string>, default: Value): (r: Value)
    ensures (exists i :: 0 <= i < |keys| && keys[i] in obj && Truthy(obj[keys[i]])) ==>
      exists i :: 0 <= i < |keys| && keys[i] in obj && r == obj[keys[i]] && Truthy(r) &&
        forall j :: 0 <= j < i ==> keys[j] !in obj || !Truthy(obj[keys[j]])
    ensures (forall i :: 0 <= i < |keys| ==> keys[i] !in obj || !Truthy(obj[keys[i]])) ==> r == default
    decreases |keys|
  {
    if keys == [] then default
    else if keys[0] in obj && Truthy(obj[keys[0]]) then obj[keys[0]]
    else
      var r := FirstTruthy(obj, keys[1..], default);
      assert (exists i :: 0 <= i < |keys| && keys[i] in obj && Truthy(obj[keys[i]])) ==>
        exists i :: 0 <= i < |keys| - 1 && keys[1..][i] in obj && Truthy(obj[keys[1..][i]]) by {
        if exists i :: 0 <= i < |keys| && keys[i] in obj && Truthy(obj[keys[i]]) {
          var i :| 0 <= i < |keys| && keys[i] in obj && Truthy(obj[keys[i]]);
          assert i > 0 && keys[1..][i - 1] == keys[i];
        }
      }
      if exists i :: 0 <= i < |keys| - 1 && keys[1..][i] in obj && Truthy(obj[keys[1..][i]]) then
        var i :| 0 <= i < |keys| - 1 && keys[1..][i] in obj && r == obj[keys[1..][i]] && Truthy(r) &&
          forall j :: 0 <= j < i ==> keys[1..][j] !in obj || !Truthy(obj[keys[1..][j]]);
        assert keys[i + 1] in obj && r == obj[keys[i + 1]] && Truthy(r);
        assert forall j :: 0 <= j < i + 1 ==> keys[j] !in obj || !Truthy(obj[keys[j]]) by {
          forall j | 0 < j < i + 1 ensures keys[j] !in obj || !Truthy(obj[keys[j]]) {
            assert keys[j] == keys[1..][j - 1];
          }
        }
        r
      else
        assert forall i :: 1 <= i < |keys| ==> keys[i] !in obj || !Truthy(obj[keys[i]]) by {
          forall i | 1 <= i < |keys| ensures keys[i] !in obj || !Truthy(obj[keys[i]]) {
            assert keys[i] == keys[1..][i - 1];
          }
        }
        r
  }

  /** `normalize_record(obj)` */
  function NormalizeRecord(obj: map<string, Value>): (s: Sample)
    ensures s.prompt == FirstTruthy(obj, ["prompt", "description", "docstring"], Str(""))
    ensures s.code == FirstTruthy(obj, ["code", "solution"], Str(""))
    ensures s.meta.None? <==> obj.Keys <= ReservedKeys
    ensures s.meta.Some? ==> (s.meta.value.Keys == obj.Keys - ReservedKeys &&
      forall k :: k in s.meta.value ==> s.meta.value[k] == obj[k])
  {
    var meta := map k | k in obj.Keys - ReservedKeys :: obj[k];
    assert meta == map[] <==> obj.Keys <= ReservedKeys by {
      if !(obj.Keys <= ReservedKeys) {
        assert obj.Keys - ReservedKeys != {};
        var k :| k in obj.Keys - ReservedKeys;
        assert k in meta;
      }
    }
    Sample(FirstTruthy(obj, ["prompt", "description", "docstring"], Str("")),
           FirstTruthy(obj, ["code", "solution"], Str("")),
           if meta == map[] then None else Some(meta))
  }

  /** A truthy `prompt` is taken as it is; a record with none of the prompt
      keys, or only falsy ones, gets `""`. */
  lemma PromptPrecedence(obj: map<string, Value>)
    ensures "prompt" in obj && Truthy(obj["prompt"]) ==> NormalizeRecord(obj).prompt == obj["prompt"]
    ensures (forall k :: k in ["prompt", "description", "docstring"] && k in obj ==> !Truthy(obj[k])) ==>
      NormalizeRecord(obj).prompt == Str("")
  {
    var keys := ["prompt", "description", "docstring"];
    if forall k :: k in keys && k in obj ==> !Truthy(obj[k]) {
      assert forall i :: 0 <= i < |keys| ==> keys[i] !in obj || !Truthy(obj[keys[i]]) by {
        forall i | 0 <= i < |keys| ensures keys[i] !in obj || !Truthy(obj[keys[i]]) {
          assert keys[i] in keys;
        }
      }
    }
  }

  /** A falsy `code` falls through to `solution`. */
  lemma CodeFallsBackToSolution(obj: map<string, Value>)
    requires "code" !in obj || !Truthy(obj["code"])
    requires "solution" in obj && Truthy(obj["solution"])
    ensures NormalizeRecord(obj).code == obj["solution"]
  {
    var keys := ["code", "solution"];
    assert keys[1] in obj && Truthy(obj[keys[1]]);
  }
}
