/**
 Element-wise helpers of the epoch runner: thresholding to {0, 1}
 (`float(x > cut)`), numpy fancy indexing `xs[idx]`, and the exact-match count
 `sum(t == p)`. Floating-point values are modelled as `real`; only
 comparisons and the values 0.0 and 1.0 are involved.
 */
module Thresholds {

  /** float(b): 1.0 for true, 0.0 for false. */
  function Indicator(b: bool): real { if b then 1.0 else 0.0 }

  /** Each value mapped to 1.0 when it exceeds the cut and to 0.0 otherwise. */
  function Above(xs: seq<real>, cut: real): (r: seq<real>)
    ensures |r| == |xs|
  {
    if |xs| == 0 then [] else [Indicator(xs[0] > cut)] + Above(xs[1..], cut)
  }

  /** Position i of the result is 1.0 exactly when xs[i] exceeds the cut, and
      0.0 otherwise. */
  lemma {:induction false} AboveSpec(xs: seq<real>, cut: real)
    ensures forall i :: 0 <= i < |xs| ==> (Above(xs, cut)[i] == 1.0 <==> xs[i] > cut)
    ensures forall i :: 0 <= i < |xs| ==> Above(xs, cut)[i] == 0.0 || Above(xs, cut)[i] == 1.0
    decreases |xs|
  {
    if |xs| > 0 {
      AboveSpec(xs[1..], cut);
      assert forall i :: 1 <= i < |xs| ==> Above(xs, cut)[i] == Above(xs[1..], cut)[i - 1];
    }
  }

  /** Thresholding a concatenation thresholds each part. */
  lemma {:induction false} AboveAppend(xs: seq<real>, ys: seq<real>, cut: real)
    ensures Above(xs + ys, cut) == Above(xs, cut) + Above(ys, cut)
    decreases |xs|
  {
    if |xs| > 0 {
      assert (xs + ys)[1..] == xs[1..] + ys;
      AboveAppend(xs[1..], ys, cut);
    } else {
      assert xs + ys == ys;
    }
  }

  ghost predicate InRange(idx: seq<nat>, n: nat)
  {
    forall k :: 0 <= k < |idx| ==> idx[k] < n
  }

  /** `xs[idx]`: the elements of xs at the positions idx, in that order. */
  function Gather<T>(xs: seq<T>, idx: seq<nat>): (r: seq<T>)
    requires InRange(idx, |xs|)
    ensures |r| == |idx|
    decreases |idx|
  {
    if |idx| == 0 then [] else [xs[idx[0]]] + Gather(xs, idx[1..])
  }

  /** Position k of the result is xs at position idx[k]. */
  lemma {:induction false} GatherSpec<T>(xs: seq<T>, idx: seq<nat>)
    requires InRange(idx, |xs|)
    ensures forall k :: 0 <= k < |idx| ==> Gather(xs, idx)[k] == xs[idx[k]]
    decreases |idx|
  {
    if |idx| > 0 {
      GatherSpec(xs, idx[1..]);
      assert forall k :: 1 <= k < |idx| ==> Gather(xs, idx)[k] == Gather(xs, idx[1..])[k - 1];
    }
  }

  /** Indexing commutes with thresholding: `above(xs)[idx] == above(xs[idx])`. */
  lemma GatherAbove(xs: seq<real>, idx: seq<nat>, cut: real)
    requires InRange(idx, |xs|)
    ensures Gather(Above(xs, cut), idx) == Above(Gather(xs, idx), cut)
  {
    var l, r := Gather(Above(xs, cut), idx), Above(Gather(xs, idx), cut);
    GatherSpec(Above(xs, cut), idx);
    GatherSpec(xs, idx);
    AboveSpec(xs, cut);
    AboveSpec(Gather(xs, idx), cut);
    assert forall k :: 0 <= k < |idx| ==> l[k] == r[k];
  }

  /** `sum(t == p)`: the number of positions where t and p agree. */
  function MatchCount(t: seq<real>, p: seq<real>): (c: nat)
    requires |t| == |p|
    ensures c <= |t|
    ensures c == |t| <==> t == p
    decreases |t|
  {
    if |t| == 0 then 0
    else
      var rest := MatchCount(t[1..], p[1..]);
      assert t == p <==> t[0] == p[0] && t[1..] == p[1..] by {
        if t[0] == p[0] && t[1..] == p[1..] {
          assert t == [t[0]] + t[1..] && p == [p[0]] + p[1..];
        }
      }
      (if t[0] == p[0] then 1 else 0) + rest
  }

  /** Example: targets [1, 0, 1, 1] against thresholded predictions
      [1, 0, 0, 1] agree at three of four positions. */
  lemma MatchCountExample()
    ensures MatchCount([1.0, 0.0, 1.0, 1.0], [1.0, 0.0, 0.0, 1.0]) == 3
  {
    var t, p := [1.0, 0.0, 1.0, 1.0], [1.0, 0.0, 0.0, 1.0];
    assert t[1..] == [0.0, 1.0, 1.0] && p[1..] == [0.0, 0.0, 1.0];
    assert t[1..][1..] == [1.0, 1.0] && p[1..][1..] == [0.0, 1.0];
    assert t[1..][1..][1..] == [1.0] && p[1..][1..][1..] == [1.0];
  }
}
