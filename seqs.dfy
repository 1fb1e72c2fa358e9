/** Order-preserving filtering of sequences, with a witness that the result is a subsequence. */
module Seqs {

  /** The elements of `s` that satisfy `keep`, in their order in `s`. */
  function Filter<T(!new)>(keep: T -> bool, s: seq<T>): (r: seq<T>)
    ensures |r| <= |s|
    ensures forall x :: x in r <==> x in s && keep(x)
    decreases |s|
  {
    if s == [] then []
    else
      var init := Filter(keep, s[..|s| - 1]);
      assert forall x :: x in s <==> x in s[..|s| - 1] || x == s[|s| - 1];
      if keep(s[|s| - 1]) then init + [s[|s| - 1]] else init
  }

  /** The positions in `s` of the elements that `Filter` keeps. */
  function KeptIndices<T(!new)>(keep: T -> bool, s: seq<T>): (idx: seq<nat>)
    ensures |idx| == |Filter(keep, s)|
    ensures forall k :: 0 <= k < |idx| ==> idx[k] < |s| && s[idx[k]] == Filter(keep, s)[k]
    ensures forall k, l :: 0 <= k < l < |idx| ==> idx[k] < idx[l]
    decreases |s|
  {
    if s == [] then []
    else
      var init := KeptIndices(keep, s[..|s| - 1]);
      if keep(s[|s| - 1]) then init + [|s| - 1] else init
  }

  /** `xs` is `ys` with some elements left out, the rest kept in order. */
  ghost predicate IsSubsequence<T>(xs: seq<T>, ys: seq<T>)
  {
    exists idx: seq<nat> ::
      |idx| == |xs| &&
      (forall k :: 0 <= k < |idx| ==> idx[k] < |ys| && ys[idx[k]] == xs[k]) &&
      (forall k, l :: 0 <= k < l < |idx| ==> idx[k] < idx[l])
  }

  lemma FilterIsSubsequence<T(!new)>(keep: T -> bool, s: seq<T>)
    ensures IsSubsequence(Filter(keep, s), s)
  {
    var idx := KeptIndices(keep, s);
    assert |idx| == |Filter(keep, s)|;
  }
}
