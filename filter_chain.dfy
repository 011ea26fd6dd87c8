/** evoselfcode/core/filter_chain.py: a chain of named filters applied one
    after the other, with the number of items each one removed. */
module Filters {
  import opened Text
  import opened Sequences

  /** The items of `xs` whose key passes `f`, in order: the list
      comprehension of one filter step. */
  function Keep<I, T>(xs: seq<I>, key: I -> T, f: T -> bool): (r: seq<I>)
    ensures |r| <= |xs|
    ensures forall x :: x in r ==> x in xs && f(key(x))
  {
    if xs == [] then []
    else (if f(key(xs[0])) then [xs[0]] else []) + Keep(xs[1..], key, f)
  }

  /** The key of `x` passes the first `n` filters. */
  predicate PassesFirst<T>(filters: seq<(string, T -> bool)>, n: nat, t: T)
    requires n <= |filters|
  {
    forall i :: 0 <= i < n ==> filters[i].1(t)
  }

  /** The items whose key passes the first `n` filters, in order. */
  function KeepAll<I, T>(xs: seq<I>, key: I -> T, filters: seq<(string, T -> bool)>, n: nat): seq<I>
    requires n <= |filters|
  {
    if xs == [] then []
    else (if PassesFirst(filters, n, key(xs[0])) then [xs[0]] else []) + KeepAll(xs[1..], key, filters, n)
  }

  /** What is left after the first `n` filters have run in turn. */
  function Stage<I, T>(items: seq<I>, key: I -> T, filters: seq<(string, T -> bool)>, n: nat): seq<I>
    requires n <= |filters|
  {
    if n == 0 then items else Keep(Stage(items, key, filters, n - 1), key, filters[n - 1].1)
  }

  /** How many items filter `i` removed. */
  function Removed<I, T>(items: seq<I>, key: I -> T, filters: seq<(string, T -> bool)>, i: nat): int
    requires i < |filters|
  {
    |Stage(items, key, filters, i)| - |Stage(items, key, filters, i + 1)|
  }

  /** The registered names. */
  function Names<T>(filters: seq<(string, T -> bool)>): set<string> {
    set i | 0 <= i < |filters| :: filters[i].0
  }

  /** No later filter has the name of filter `i`, so its count is the one
      left in the stats. */
  predicate LastWithName<T>(filters: seq<(string, T -> bool)>, i: nat, upTo: nat)
    requires i < upTo <= |filters|
  {
    forall j :: i < j < upTo ==> filters[j].0 != filters[i].0
  }

  /** One more filter step on a list already filtered by the first `n`. */
  lemma {:induction false} KeepStep<I, T>(xs: seq<I>, key: I -> T, filters: seq<(string, T -> bool)>, n: nat)
    requires n < |filters|
    ensures Keep(KeepAll(xs, key, filters, n), key, filters[n].1) == KeepAll(xs, key, filters, n + 1)
    decreases |xs|
  {
    if xs != [] {
      KeepStep(xs[1..], key, filters, n);
      var head := if PassesFirst(filters, n, key(xs[0])) then [xs[0]] else [];
      var rest := KeepAll(xs[1..], key, filters, n);
      KeepAppend(head, rest, key, filters[n].1);
    }
  }

  lemma {:induction false} KeepAppend<I, T>(a: seq<I>, b: seq<I>, key: I -> T, f: T -> bool)
    ensures Keep(a + b, key, f) == Keep(a, key, f) + Keep(b, key, f)
    decreases |a|
  {
    if a == [] {
      assert a + b == b;
    } else {
      assert (a + b)[1..] == a[1..] + b;
      KeepAppend(a[1..], b, key, f);
    }
  }

  /** Running the filters one after the other keeps exactly the items that
      pass them all. */
  lemma {:induction false} StageIsKeepAll<I, T>(items: seq<I>, key: I -> T, filters: seq<(string, T -> bool)>, n: nat)
    requires n <= |filters|
    ensures Stage(items, key, filters, n) == KeepAll(items, key, filters, n)
    decreases n
  {
    if n == 0 {
      KeepNone(items, key, filters);
    } else {
      StageIsKeepAll(items, key, filters, n - 1);
      StageStep(items, key, filters, n);
    }
  }

  lemma StageStep<I, T>(items: seq<I>, key: I -> T, filters: seq<(string, T -> bool)>, n: nat)
    requires 0 < n <= |filters| && Stage(items, key, filters, n - 1) == KeepAll(items, key, filters, n - 1)
    ensures Stage(items, key, filters, n) == KeepAll(items, key, filters, n)
  {
    KeepStep(items, key, filters, n - 1);
  }

  lemma {:induction false} KeepNone<I, T>(xs: seq<I>, key: I -> T, filters: seq<(string, T -> bool)>)
    ensures KeepAll(xs, key, filters, 0) == xs
    decreases |xs|
  {
    if xs != [] {
      KeepNone(xs[1..], key, filters);
      assert [xs[0]] + xs[1..] == xs;
    }
  }

  /** The result keeps the input's order, holds only items passing every
      filter, and drops none of those. */
  lemma {:induction false} KeepAllProperties<I, T>(xs: seq<I>, key: I -> T, filters: seq<(string, T -> bool)>, n: nat)
    requires n <= |filters|
    ensures IsSubseq(KeepAll(xs, key, filters, n), xs)
    ensures forall x :: x in KeepAll(xs, key, filters, n) ==> PassesFirst(filters, n, key(x))
    ensures forall x :: x in xs && PassesFirst(filters, n, key(x)) ==> x in KeepAll(xs, key, filters, n)
    decreases |xs|
  {
    if xs != [] {
      var rest := KeepAll(xs[1..], key, filters, n);
      KeepAllProperties(xs[1..], key, filters, n);
      var r := KeepAll(xs, key, filters, n);
      if PassesFirst(filters, n, key(xs[0])) {
        assert r[0] == xs[0] && r[1..] == rest;
      } else {
        assert r == rest;
      }
      assert forall x :: x in xs ==> x == xs[0] || x in xs[1..];
    }
  }

  /** What `apply` returns keeps the input's order, holds only items that
      pass every filter of the chain, and drops none of those. */
  lemma ChainResult<I, T>(items: seq<I>, key: I -> T, filters: seq<(string, T -> bool)>)
    ensures IsSubseq(Stage(items, key, filters, |filters|), items)
    ensures forall x :: x in Stage(items, key, filters, |filters|) ==> PassesFirst(filters, |filters|, key(x))
    ensures forall x :: x in items && PassesFirst(filters, |filters|, key(x)) ==> x in Stage(items, key, filters, |filters|)
  {
    StageIsKeepAll(items, key, filters, |filters|);
    KeepAllProperties(items, key, filters, |filters|);
  }

  /** The counts add up: summed over the filters, what they removed is what
      the chain removed. */
  function SumRemoved<I, T>(items: seq<I>, key: I -> T, filters: seq<(string, T -> bool)>, n: nat): int
    requires n <= |filters|
  {
    if n == 0 then 0 else SumRemoved(items, key, filters, n - 1) + Removed(items, key, filters, n - 1)
  }

  lemma {:induction false} RemovedTelescopes<I, T>(items: seq<I>, key: I -> T, filters: seq<(string, T -> bool)>, n: nat)
    requires n <= |filters|
    ensures SumRemoved(items, key, filters, n) == |items| - |Stage(items, key, filters, n)|
    decreases n
  {
    if n > 0 {
      RemovedTelescopes(items, key, filters, n - 1);
    }
  }

  /** `FilterChain`: its filters in registration order and the removal
      count of the last `apply`. The configuration the filter functions read
      is captured by the functions themselves. */
  class FilterChain<T> {
    var filters: seq<(string, T -> bool)>
    var stats: map<string, int>

    constructor ()
      ensures filters == [] && stats == map[]
    {
      filters := [];
      stats := map[];
    }

    /** `add_filter(name, filter_func)` */
    method AddFilter(name: string, filterFunc: T -> bool)
      modifies this
      ensures filters == old(filters) + [(name, filterFunc)]
      ensures stats == old(stats)[name := 0]
    {
      filters := filters + [(name, filterFunc)];
      stats := stats[name := 0];
    }

    /** `apply(items, extract_key)`; with no `extract_key` the key is the
        item itself. */
    method Apply<I>(items: seq<I>, key: I -> T) returns (result: seq<I>)
      modifies this
      ensures filters == old(filters)
      ensures result == Stage(items, key, filters, |filters|)
      ensures stats.Keys == Names(filters)
      ensures forall i :: 0 <= i < |filters| && LastWithName(filters, i, |filters|) ==>
        stats[filters[i].0] == Removed(items, key, filters, i)
    {
      var fs := filters;
      stats := map name | name in Names(fs) :: 0;
      var filtered := items;
      for i := 0 to |fs|
        invariant filters == fs
        invariant filtered == Stage(items, key, fs, i)
        invariant stats.Keys == Names(fs)
        invariant forall j :: 0 <= j < i && LastWithName(fs, j, i) ==> stats[fs[j].0] == Removed(items, key, fs, j)
      {
        var (filterName, filterFunc) := fs[i];
        var beforeCount := |filtered|;
        filtered := Keep(filtered, key, filterFunc);
        assert filterName in Names(fs);
        assert beforeCount - |filtered| == Removed(items, key, fs, i);
        ghost var prev := stats;
        stats := stats[filterName := beforeCount - |filtered|];
        forall j | 0 <= j < i + 1 && LastWithName(fs, j, i + 1)
          ensures stats[fs[j].0] == Removed(items, key, fs, j)
        {
          if j < i {
            assert fs[j].0 in Names(fs);
            assert fs[i].0 != fs[j].0;
            assert LastWithName(fs, j, i);
          }
        }
      }
      result := filtered;
    }

    /** `get_stats()`: a copy of the counts. */
    method GetStats() returns (s: map<string, int>)
      ensures s == stats
    {
      s := stats;
    }
  }

  /** `filter_funcname_regex(name)`: empty and whitespace-only names are
      rejected; an empty pattern accepts every other name; otherwise the
      answer is `re.match(pattern, name.strip())`, given as `matches`. */
  function FilterFuncnameRegex(name: string, pattern: string, matches: (string, string) -> bool): (r: bool)
    ensures IsBlank(name) ==> !r
    ensures !IsBlank(name) && pattern == [] ==> r
    ensures !IsBlank(name) && pattern != [] ==> r == matches(pattern, Strip(name))
  {
    StripEmptyIffBlank(name);
    if name == [] || Strip(name) == [] then false
    else if pattern == [] then true
    else matches(pattern, Strip(name))
  }

  /** The default `filters.name_regex`. */
  const DefaultNameRegex: string := "^[a-z_][a-z0-9_]{2,64}$"

  /** `filter_funcname_weaklist(name)`: with a non-empty weaklist, a name
      passes exactly when it matches no entry ignoring case. */
  function FilterFuncnameWeaklist(name: string, weaklist: seq<string>): (r: bool)
    ensures weaklist == [] ==> r
    ensures r <==> forall i :: 0 <= i < |weaklist| ==> Lower(weaklist[i]) != Lower(name)
  {
    if weaklist == [] then true
    else
      var lowered := seq(|weaklist|, i requires 0 <= i < |weaklist| => Lower(weaklist[i]));
      assert forall i :: 0 <= i < |weaklist| ==> lowered[i] == Lower(weaklist[i]);
      assert Lower(name) in lowered <==> exists i :: 0 <= i < |weaklist| && lowered[i] == Lower(name);
      Lower(name) !in lowered
  }

  /** The default `filters.min_code_len`. */
  const DefaultMinCodeLen: int := 16

  /** `filter_code_length(code)`: at least `min_len` characters once stripped. */
  function FilterCodeLength(code: string, minLen: int): (r: bool)
    ensures r <==> |Strip(code)| >= minLen
    ensures IsBlank(code) ==> (r <==> minLen <= 0)
  {
    StripEmptyIffBlank(code);
    |Strip(code)| >= minLen
  }
}
