/**
 * Exact arithmetic over real-valued samples: the sums and means that numpy's
 * `mean` computes, over `real` instead of IEEE doubles.
 */
module Stats {

  /** Sum of a sequence of samples. */
  function Sum(s: seq<real>): real
  {
    if |s| == 0 then 0.0 else s[0] + Sum(s[1..])
  }

  /** Arithmetic mean of a non-empty sequence (numpy `mean` over a non-empty slice). */
  function Mean(s: seq<real>): real
    requires |s| > 0
  {
    Sum(s) / (|s| as real)
  }

  /** Every sample minus the scalar `c` (numpy `s - c`). */
  function Shifted(s: seq<real>, c: real): seq<real>
  {
    seq(|s|, k requires 0 <= k < |s| => s[k] - c)
  }

  /** Sample-wise sum of two equally long sequences. */
  function Added(u: seq<real>, v: seq<real>): seq<real>
    requires |u| == |v|
  {
    seq(|u|, k requires 0 <= k < |u| => u[k] + v[k])
  }

  /** The sum of a sample-wise sum is the sum of the two sums. */
  lemma {:induction false} SumAdded(u: seq<real>, v: seq<real>)
    requires |u| == |v|
    ensures Sum(Added(u, v)) == Sum(u) + Sum(v)
  {
    if |u| > 0 {
      assert Added(u, v)[1..] == Added(u[1..], v[1..]);
      SumAdded(u[1..], v[1..]);
    }
  }

  /** The mean of a sample-wise sum is the sum of the two means. */
  lemma MeanAdded(u: seq<real>, v: seq<real>)
    requires |u| == |v| > 0
    ensures Mean(Added(u, v)) == Mean(u) + Mean(v)
  {
    SumAdded(u, v);
    var n := |u| as real;
    assert (Sum(u) + Sum(v)) / n == Sum(u) / n + Sum(v) / n;
  }

  /** Appending one sample adds it to the sum. */
  lemma {:induction false} SumSnoc(s: seq<real>, x: real)
    ensures Sum(s + [x]) == Sum(s) + x
  {
    if |s| > 0 {
      assert (s + [x])[1..] == s[1..] + [x];
      SumSnoc(s[1..], x);
    } else {
      assert s + [x] == [x];
    }
  }

  /** A sequence of `n` copies of `c` sums to `n * c`. */
  lemma {:induction false} SumOfConstant(s: seq<real>, c: real)
    requires forall k :: 0 <= k < |s| ==> s[k] == c
    ensures Sum(s) == (|s| as real) * c
  {
    if |s| > 0 {
      SumOfConstant(s[1..], c);
    }
  }

  /** Shifting every sample by `c` shifts the sum by `|s| * c`. */
  lemma {:induction false} SumShifted(s: seq<real>, c: real)
    ensures Sum(Shifted(s, c)) == Sum(s) - (|s| as real) * c
  {
    if |s| > 0 {
      assert Shifted(s, c)[1..] == Shifted(s[1..], c);
      SumShifted(s[1..], c);
    }
  }

  /** Samples bounded by `lo` and `hi` give a sum bounded by `|s| * lo` and `|s| * hi`. */
  lemma {:induction false} SumBounds(s: seq<real>, lo: real, hi: real)
    requires forall k :: 0 <= k < |s| ==> lo <= s[k] <= hi
    ensures (|s| as real) * lo <= Sum(s) <= (|s| as real) * hi
  {
    if |s| > 0 {
      SumBounds(s[1..], lo, hi);
    }
  }

  /** The mean of identical samples is that sample. */
  lemma MeanOfConstant(s: seq<real>, c: real)
    requires |s| > 0
    requires forall k :: 0 <= k < |s| ==> s[k] == c
    ensures Mean(s) == c
  {
    SumOfConstant(s, c);
  }

  /** Subtracting a scalar from every sample subtracts it from the mean. */
  lemma MeanShifted(s: seq<real>, c: real)
    requires |s| > 0
    ensures Mean(Shifted(s, c)) == Mean(s) - c
  {
    SumShifted(s, c);
    var n := |s| as real;
    assert (Sum(s) - n * c) / n == Sum(s) / n - c;
  }

  /** The mean lies between any lower and upper bound of the samples. */
  lemma MeanBounds(s: seq<real>, lo: real, hi: real)
    requires |s| > 0
    requires forall k :: 0 <= k < |s| ==> lo <= s[k] <= hi
    ensures lo <= Mean(s) <= hi
  {
    SumBounds(s, lo, hi);
    var n := |s| as real;
    assert n * lo / n == lo && n * hi / n == hi;
  }
}
