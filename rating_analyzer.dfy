/** evoselfcode/datagen/preprocess/rating_analyzer.py, `extract_scores`:
    collecting, per rating dimension, the in-range scores of a list of
    rating records. Scores are whole numbers here; the statistics computed
    from them afterwards are not part of this model. */
module RatingAnalysis {
  import opened Text
  import opened Json

  /** The five dimensions, in the order `extract_scores` visits them. */
  const Dimensions: seq<string> := ["problem_design", "function_definition", "correctness", "efficiency", "readability"]

  /** What `score is not None and 1 <= score <= 5` does with one value. */
  datatype ScoreCheck = Skip | Keep(score: int) | Raise

  /** JSON `true` compares as 1 and `false` as 0; strings, lists and dicts
      make the comparison raise `TypeError`. */
  function CheckScore(v: Value): (c: ScoreCheck)
    ensures c.Keep? ==> 1 <= c.score <= 5
    ensures c.Raise? <==> (v.Str? || v.List? || v.Dict?)
  {
    match v
    case Null => Skip
    case Int(i) => if 1 <= i <= 5 then Keep(i) else Skip
    case Bool(b) => if b then Keep(1) else Skip
    case _ => Raise
  }

  /** The check of dimension `dim` of one record: `rating.get('ratings', {})`
      must be a dict, and a missing dimension is `None`. */
  function ScoreAt(rec: map<string, Value>, dim: string): (c: ScoreCheck)
    ensures c.Keep? ==> 1 <= c.score <= 5
  {
    match SubDict(rec, "ratings")
    case None => Raise
    case Some(m) => if dim in m then CheckScore(m[dim]) else Skip
  }

  /** No dimension of `rec` makes the comparison raise. */
  predicate RecordOk(rec: map<string, Value>) {
    forall k :: 0 <= k < |Dimensions| ==> !ScoreAt(rec, Dimensions[k]).Raise?
  }

  /** No record makes `extract_scores` raise. */
  predicate Extractable(ratings: seq<map<string, Value>>) {
    forall j :: 0 <= j < |ratings| ==> RecordOk(ratings[j])
  }

  /** What one record appends to the list of `dim`. */
  function Contribution(rec: map<string, Value>, dim: string): seq<int> {
    var c := ScoreAt(rec, dim);
    if c.Keep? then [c.score] else []
  }

  /** The list `extract_scores` builds for `dim`: the kept scores, in record order. */
  function Column(ratings: seq<map<string, Value>>, dim: string): seq<int>
  {
    if ratings == [] then []
    else Column(ratings[..|ratings| - 1], dim) + Contribution(ratings[|ratings| - 1], dim)
  }

  /** The five dimension names. */
  function DimensionSet(): set<string> {
    set k | 0 <= k < |Dimensions| :: Dimensions[k]
  }

  /** The inner loop of `extract_scores` over the dimensions of one record. */
  method AddRecord(dims: map<string, seq<int>>, rec: map<string, Value>) returns (r: Option<map<string, seq<int>>>)
    requires dims.Keys == DimensionSet()
    ensures r.Some? <==> RecordOk(rec)
    ensures r.Some? ==> r.value.Keys == DimensionSet()
    ensures r.Some? ==> forall k :: 0 <= k < |Dimensions| ==> r.value[Dimensions[k]] == dims[Dimensions[k]] + Contribution(rec, Dimensions[k])
  {
    var acc := dims;
    for i := 0 to |Dimensions|
      invariant acc.Keys == DimensionSet()
      invariant forall k :: 0 <= k < i ==> acc[Dimensions[k]] == dims[Dimensions[k]] + Contribution(rec, Dimensions[k])
      invariant forall k :: i <= k < |Dimensions| ==> acc[Dimensions[k]] == dims[Dimensions[k]]
      invariant forall k :: 0 <= k < i ==> !ScoreAt(rec, Dimensions[k]).Raise?
    {
      var dim := Dimensions[i];
      var c := ScoreAt(rec, dim);
      if c.Raise? {
        return None;
      }
      acc := acc[dim := acc[dim] + Contribution(rec, dim)];
    }
    return Some(acc);
  }

  /** `extract_scores(ratings)`; `None` where Python raises. */
  method ExtractScores(ratings: seq<map<string, Value>>) returns (r: Option<map<string, seq<int>>>)
    ensures r.Some? <==> Extractable(ratings)
    ensures r.Some? ==> r.value.Keys == DimensionSet()
    ensures r.Some? ==> forall k :: 0 <= k < |Dimensions| ==> r.value[Dimensions[k]] == Column(ratings, Dimensions[k])
  {
    var dims: map<string, seq<int>> := map k | 0 <= k < |Dimensions| :: Dimensions[k] := [];
    for j := 0 to |ratings|
      invariant dims.Keys == DimensionSet()
      invariant forall k :: 0 <= k < |Dimensions| ==> dims[Dimensions[k]] == Column(ratings[..j], Dimensions[k])
      invariant Extractable(ratings[..j])
    {
      var next := AddRecord(dims, ratings[j]);
      if next.None? {
        return None;
      }
      assert ratings[..j + 1][..j] == ratings[..j];
      dims := next.value;
      assert ratings[..j + 1] == ratings[..j] + [ratings[j]];
    }
    assert ratings[..|ratings|] == ratings;
    return Some(dims);
  }

  /** Every extracted score lies in `[1, 5]`. */
  lemma {:induction false} ColumnInRange(ratings: seq<map<string, Value>>, dim: string)
    ensures forall i :: 0 <= i < |Column(ratings, dim)| ==> 1 <= Column(ratings, dim)[i] <= 5
  {
    if ratings != [] {
      ColumnInRange(ratings[..|ratings| - 1], dim);
    }
  }

  /** Each list has at most one entry per record. */
  lemma {:induction false} ColumnLength(ratings: seq<map<string, Value>>, dim: string)
    ensures |Column(ratings, dim)| <= |ratings|
  {
    if ratings != [] {
      ColumnLength(ratings[..|ratings| - 1], dim);
    }
  }

  /** Scores keep the order of the records: the list for a concatenation is
      the concatenation of the lists. */
  lemma {:induction false} ColumnAppend(a: seq<map<string, Value>>, b: seq<map<string, Value>>, dim: string)
    ensures Column(a + b, dim) == Column(a, dim) + Column(b, dim)
    decreases |b|
  {
    if b == [] {
      assert a + b == a;
    } else {
      assert (a + b)[..|a + b| - 1] == a + b[..|b| - 1];
      ColumnAppend(a, b[..|b| - 1], dim);
    }
  }

  /** A record whose score is absent, `null` or out of range adds nothing. */
  lemma SkippedScore(ratings: seq<map<string, Value>>, rec: map<string, Value>, dim: string)
    requires "ratings" in rec && rec["ratings"].Dict?
    requires dim !in rec["ratings"].fields || rec["ratings"].fields[dim] == Null
      || (rec["ratings"].fields[dim].Int? && !(1 <= rec["ratings"].fields[dim].i <= 5))
    ensures Column(ratings + [rec], dim) == Column(ratings, dim)
  {
    assert (ratings + [rec])[..|ratings|] == ratings;
  }
}
