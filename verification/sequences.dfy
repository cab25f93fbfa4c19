/**
 * The list operations the parameter bookkeeping is built from: Python's
 * `sum`, `reversed`, clamped slicing `t[lo:hi]`, exclusive prefix sums (the
 * sum of the sizes before each position), and concatenation of slices.
 */
module Sequences {

  /** Python's `sum` over a list of sizes, a left fold: the last element is added last. */
  function Sum(s: seq<nat>): nat
  {
    if s == [] then 0 else Sum(s[..|s| - 1]) + s[|s| - 1]
  }

  /** `list(reversed(s))`. */
  function Reverse<T>(s: seq<T>): (r: seq<T>)
    ensures |r| == |s|
  {
    seq(|s|, i requires 0 <= i < |s| => s[|s| - 1 - i])
  }

  /** Concatenation of a list of lists, in order. */
  function Flatten<T>(ss: seq<seq<T>>): seq<T>
  {
    if ss == [] then [] else Flatten(ss[..|ss| - 1]) + ss[|ss| - 1]
  }

  /**
   * Python's slice `t[lo:hi]` for non-negative bounds: both bounds are clamped
   * to the length, and a slice whose end precedes its start is empty.
   */
  function PySlice<T>(t: seq<T>, lo: nat, hi: nat): (r: seq<T>)
    ensures lo <= hi <= |t| ==> r == t[lo..hi]
    ensures |t| <= lo ==> r == []
    ensures lo <= |t| <= hi ==> r == t[lo..]
  {
    var a := if lo < |t| then lo else |t|;
    var b := if hi < |t| then hi else |t|;
    if b <= a then [] else t[a..b]
  }

  /** The start offset of each piece: element `i` is the sum of the sizes before it. */
  function ExclusivePrefixSums(sizes: seq<nat>): (begins: seq<nat>)
    ensures |begins| == |sizes|
  {
    seq(|sizes|, i requires 0 <= i < |sizes| => Sum(sizes[..i]))
  }

  lemma SumSnoc(s: seq<nat>, i: nat)
    requires i < |s|
    ensures Sum(s[..i + 1]) == Sum(s[..i]) + s[i]
  {
    assert s[..i + 1][..i] == s[..i];
  }

  lemma {:induction false} SumCons(x: nat, s: seq<nat>)
    ensures Sum([x] + s) == x + Sum(s)
  {
    if s != [] {
      var n := |s|;
      assert ([x] + s)[..n] == [x] + s[..n - 1];
      SumCons(x, s[..n - 1]);
    }
  }

  /** Summing a list in reverse order gives the same total. */
  lemma {:induction false} SumReverse(s: seq<nat>)
    ensures Sum(Reverse(s)) == Sum(s)
  {
    if s != [] {
      var r := Reverse(s);
      assert r[..|s| - 1] == Reverse(s[1..]);
      SumReverse(s[1..]);
      SumCons(s[0], s[1..]);
      assert [s[0]] + s[1..] == s;
    }
  }

  /** A longer prefix never sums to less. */
  lemma {:induction false} SumPrefixMonotone(s: seq<nat>, i: nat, j: nat)
    requires i <= j <= |s|
    ensures Sum(s[..i]) <= Sum(s[..j])
  {
    if i < j {
      SumSnoc(s, j - 1);
      SumPrefixMonotone(s, i, j - 1);
    }
  }

  /**
   * The pieces `[begins[i], begins[i] + sizes[i])` start at 0, each begins where
   * the previous one ends, and the last ends at the total.
   */
  lemma PrefixSumsContiguous(sizes: seq<nat>)
    ensures sizes != [] ==> ExclusivePrefixSums(sizes)[0] == 0
    ensures forall i :: 0 <= i < |sizes| - 1 ==>
      ExclusivePrefixSums(sizes)[i + 1] == ExclusivePrefixSums(sizes)[i] + sizes[i]
    ensures sizes != [] ==>
      ExclusivePrefixSums(sizes)[|sizes| - 1] + sizes[|sizes| - 1] == Sum(sizes)
  {
    var b := ExclusivePrefixSums(sizes);
    forall i | 0 <= i < |sizes| - 1
      ensures b[i + 1] == b[i] + sizes[i]
    {
      SumSnoc(sizes, i);
    }
    if sizes != [] {
      SumSnoc(sizes, |sizes| - 1);
      assert sizes[..|sizes|] == sizes;
    }
  }

  /** Distinct pieces never overlap, and they appear in increasing order of offset. */
  lemma PrefixSumsDisjoint(sizes: seq<nat>)
    ensures forall i, j :: 0 <= i < j < |sizes| ==>
      ExclusivePrefixSums(sizes)[i] + sizes[i] <= ExclusivePrefixSums(sizes)[j]
    ensures forall i :: 0 <= i < |sizes| ==>
      ExclusivePrefixSums(sizes)[i] + sizes[i] <= Sum(sizes)
  {
    var b := ExclusivePrefixSums(sizes);
    forall i, j | 0 <= i < j < |sizes|
      ensures b[i] + sizes[i] <= b[j]
    {
      SumSnoc(sizes, i);
      SumPrefixMonotone(sizes, i + 1, j);
    }
    forall i | 0 <= i < |sizes|
      ensures b[i] + sizes[i] <= Sum(sizes)
    {
      SumSnoc(sizes, i);
      SumPrefixMonotone(sizes, i + 1, |sizes|);
      assert sizes[..|sizes|] == sizes;
    }
  }

  /** Piece `i` ends where the prefix of length `i + 1` ends, within the total. */
  lemma PrefixSumEnd(sizes: seq<nat>, i: nat)
    requires i < |sizes|
    ensures ExclusivePrefixSums(sizes)[i] + sizes[i] == Sum(sizes[..i + 1]) <= Sum(sizes)
  {
    SumSnoc(sizes, i);
    SumPrefixMonotone(sizes, i + 1, |sizes|);
    assert sizes[..|sizes|] == sizes;
  }

  lemma {:induction false} CoverPrefix(sizes: seq<nat>, k: nat, p: nat)
    requires k <= |sizes|
    requires p < Sum(sizes[..k])
    ensures exists i :: 0 <= i < k && Sum(sizes[..i]) <= p < Sum(sizes[..i]) + sizes[i]
  {
    if k == 0 {
      assert false;
    } else {
      SumSnoc(sizes, k - 1);
      if p < Sum(sizes[..k - 1]) {
        CoverPrefix(sizes, k - 1, p);
      }
    }
  }

  /** Every position below the total lies in exactly one piece. */
  lemma PrefixSumsCover(sizes: seq<nat>, p: nat)
    requires p < Sum(sizes)
    ensures exists i :: (0 <= i < |sizes| &&
      ExclusivePrefixSums(sizes)[i] <= p < ExclusivePrefixSums(sizes)[i] + sizes[i])
    ensures forall i, j ::
      0 <= i < |sizes| && ExclusivePrefixSums(sizes)[i] <= p < ExclusivePrefixSums(sizes)[i] + sizes[i] &&
      0 <= j < |sizes| && ExclusivePrefixSums(sizes)[j] <= p < ExclusivePrefixSums(sizes)[j] + sizes[j]
      ==> i == j
  {
    assert sizes[..|sizes|] == sizes;
    CoverPrefix(sizes, |sizes|, p);
    var i :| 0 <= i < |sizes| && Sum(sizes[..i]) <= p < Sum(sizes[..i]) + sizes[i];
    assert ExclusivePrefixSums(sizes)[i] == Sum(sizes[..i]);
    PrefixSumsDisjoint(sizes);
  }
}
