/** Order-preserving embedding of one list in another, used to say that a
    filter keeps its input's order and that every hash written has its
    record written before it. */
module Sequences {

  /** `xs` occurs in `ys` in order, possibly with gaps (matched greedily). */
  predicate IsSubseq<T(==)>(xs: seq<T>, ys: seq<T>)
    decreases |ys|
  {
    xs == [] || (ys != [] && if xs[0] == ys[0] then IsSubseq(xs[1..], ys[1..]) else IsSubseq(xs, ys[1..]))
  }

  /** Every element of a subsequence is an element of the whole. */
  lemma {:induction false} SubseqMembers<T>(xs: seq<T>, ys: seq<T>)
    requires IsSubseq(xs, ys)
    ensures forall x :: x in xs ==> x in ys
    decreases |ys|
  {
    if xs != [] {
      if xs[0] == ys[0] {
        SubseqMembers(xs[1..], ys[1..]);
        assert forall x :: x in xs ==> x == xs[0] || x in xs[1..];
      } else {
        SubseqMembers(xs, ys[1..]);
      }
    }
  }

  /** A subsequence is never longer than the whole. */
  lemma {:induction false} SubseqLength<T>(xs: seq<T>, ys: seq<T>)
    requires IsSubseq(xs, ys)
    ensures |xs| <= |ys|
    decreases |ys|
  {
    if xs != [] {
      if xs[0] == ys[0] {
        SubseqLength(xs[1..], ys[1..]);
      } else {
        SubseqLength(xs, ys[1..]);
      }
    }
  }

  /** Every list is a subsequence of itself. */
  lemma {:induction false} SubseqRefl<T>(xs: seq<T>)
    ensures IsSubseq(xs, xs)
    decreases |xs|
  {
    if xs != [] {
      SubseqRefl(xs[1..]);
    }
  }

  /** Anything may be added after the whole. */
  lemma {:induction false} SubseqExtendRight<T>(xs: seq<T>, ys: seq<T>, zs: seq<T>)
    requires IsSubseq(xs, ys)
    ensures IsSubseq(xs, ys + zs)
    decreases |ys|
  {
    if xs != [] {
      assert (ys + zs)[1..] == ys[1..] + zs;
      if xs[0] == ys[0] {
        SubseqExtendRight(xs[1..], ys[1..], zs);
      } else {
        SubseqExtendRight(xs, ys[1..], zs);
      }
    }
  }

  /** Both lists may be followed by the same tail. */
  lemma {:induction false} SubseqAppendBoth<T>(xs: seq<T>, ys: seq<T>, zs: seq<T>)
    requires IsSubseq(xs, ys)
    ensures IsSubseq(xs + zs, ys + zs)
    decreases |ys|
  {
    if xs == [] {
      assert xs + zs == zs;
      SubseqSuffix(zs, ys);
    } else {
      assert (ys + zs)[1..] == ys[1..] + zs;
      assert (xs + zs)[0] == xs[0] && (xs + zs)[1..] == xs[1..] + zs;
      if xs[0] == ys[0] {
        SubseqAppendBoth(xs[1..], ys[1..], zs);
      } else {
        SubseqAppendBoth(xs, ys[1..], zs);
      }
    }
  }

  /** A list is a subsequence of itself with anything put in front. */
  lemma {:induction false} SubseqSuffix<T>(zs: seq<T>, ys: seq<T>)
    ensures IsSubseq(zs, ys + zs)
    decreases |ys|
  {
    if ys == [] {
      assert ys + zs == zs;
      SubseqRefl(zs);
    } else {
      SubseqSuffix(zs, ys[1..]);
      SubseqSkip(zs, ys[1..] + zs, ys[0]);
      assert [ys[0]] + (ys[1..] + zs) == ys + zs;
    }
  }

  /** One more element in front of the whole keeps a subsequence one. */
  lemma {:induction false} SubseqSkip<T>(xs: seq<T>, ys: seq<T>, y: T)
    requires IsSubseq(xs, ys)
    ensures IsSubseq(xs, [y] + ys)
    decreases |ys|, 1
  {
    assert ([y] + ys)[1..] == ys;
    if xs != [] && xs[0] == y {
      SubseqTail(xs, ys);
    }
  }

  /** Dropping the first element of the part keeps it a subsequence. */
  lemma {:induction false} SubseqTail<T>(xs: seq<T>, ys: seq<T>)
    requires xs != [] && IsSubseq(xs, ys)
    ensures IsSubseq(xs[1..], ys)
    decreases |ys|, 0
  {
    if xs[0] == ys[0] {
      SubseqSkip(xs[1..], ys[1..], ys[0]);
    } else {
      SubseqTail(xs, ys[1..]);
      SubseqSkip(xs[1..], ys[1..], ys[0]);
    }
    assert [ys[0]] + ys[1..] == ys;
  }
}
