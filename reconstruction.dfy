/**
 * The reconstructor: each cycle's template is subtracted from its region of
 * the copied recording, one event after another, so that regions that
 * overlap receive every template that covers them.
 */
module Reconstruction {
  import opened Stats

  /** The row with `tpl` subtracted sample by sample over `[onset, onset + |tpl|)` (denoising.py:86). */
  function SubtractAt(row: seq<real>, onset: nat, tpl: seq<real>): (r: seq<real>)
    ensures |r| == |row|
  {
    seq(|row|, s requires 0 <= s < |row| =>
      if onset <= s < onset + |tpl| then row[s] - tpl[s - onset] else row[s])
  }

  /** The row after the templates of the first `k` events have been subtracted, in event order. */
  function CleanedRow(row: seq<real>, onsets: seq<nat>, tpls: seq<seq<real>>, k: nat): (r: seq<real>)
    requires k <= |onsets| == |tpls|
    ensures |r| == |row|
  {
    if k == 0 then row
    else SubtractAt(CleanedRow(row, onsets, tpls, k - 1), onsets[k - 1], tpls[k - 1])
  }

  /** What the template of event `j` subtracts at sample `s` (zero outside its region). */
  function Contribution(onsets: seq<nat>, tpls: seq<seq<real>>, j: nat, s: nat): real
    requires j < |onsets| == |tpls|
  {
    if onsets[j] <= s < onsets[j] + |tpls[j]| then tpls[j][s - onsets[j]] else 0.0
  }

  /** The contributions of the first `k` events at sample `s`. */
  function Contributions(onsets: seq<nat>, tpls: seq<seq<real>>, k: nat, s: nat): seq<real>
    requires k <= |onsets| == |tpls|
  {
    seq(k, j requires 0 <= j < k => Contribution(onsets, tpls, j, s))
  }

  /** Every sample ends up as the original minus the sum of all templates that cover it. */
  lemma {:induction false} CleanedIsTotalSubtraction(row: seq<real>, onsets: seq<nat>, tpls: seq<seq<real>>, k: nat, s: nat)
    requires k <= |onsets| == |tpls| && s < |row|
    ensures CleanedRow(row, onsets, tpls, k)[s] == row[s] - Sum(Contributions(onsets, tpls, k, s))
  {
    if k > 0 {
      CleanedIsTotalSubtraction(row, onsets, tpls, k - 1, s);
      assert Contributions(onsets, tpls, k, s)
          == Contributions(onsets, tpls, k - 1, s) + [Contribution(onsets, tpls, k - 1, s)];
      SumSnoc(Contributions(onsets, tpls, k - 1, s), Contribution(onsets, tpls, k - 1, s));
    } else {
      assert Contributions(onsets, tpls, k, s) == [];
    }
  }

  /** A sample that no region covers is passed through unchanged. */
  lemma {:induction false} PassThrough(row: seq<real>, onsets: seq<nat>, tpls: seq<seq<real>>, k: nat, s: nat)
    requires k <= |onsets| == |tpls| && s < |row|
    requires forall j :: 0 <= j < k ==> !(onsets[j] <= s < onsets[j] + |tpls[j]|)
    ensures CleanedRow(row, onsets, tpls, k)[s] == row[s]
  {
    if k > 0 {
      PassThrough(row, onsets, tpls, k - 1, s);
    }
  }

  /** No two cycle regions of `n` samples share a sample. */
  predicate Disjoint(onsets: seq<nat>, n: nat)
  {
    forall j, k :: 0 <= j < k < |onsets| ==> onsets[j] + n <= onsets[k] || onsets[k] + n <= onsets[j]
  }

  /** With disjoint regions, region `i` holds exactly the original samples minus template `i`. */
  lemma {:induction false} ExactRegion(row: seq<real>, onsets: seq<nat>, tpls: seq<seq<real>>, nTimes: nat, k: nat, i: nat, t: nat)
    requires k <= |onsets| == |tpls| && Disjoint(onsets, nTimes)
    requires forall j :: 0 <= j < |tpls| ==> |tpls[j]| == nTimes
    requires i < k && t < nTimes && onsets[i] + t < |row|
    ensures CleanedRow(row, onsets, tpls, k)[onsets[i] + t] == row[onsets[i] + t] - tpls[i][t]
  {
    if k - 1 == i {
      PassThrough(row, onsets, tpls, i, onsets[i] + t);
    } else {
      ExactRegion(row, onsets, tpls, nTimes, k - 1, i, t);
    }
  }

  /** Events at least `n` samples apart, in increasing order, have disjoint regions. */
  lemma IncreasingGapsAreDisjoint(onsets: seq<nat>, n: nat)
    requires forall k :: 0 <= k < |onsets| - 1 ==> onsets[k] + n <= onsets[k + 1]
    ensures Disjoint(onsets, n)
  {
    forall j, k | 0 <= j < k < |onsets|
      ensures onsets[j] + n <= onsets[k]
    {
      GapChain(onsets, n, j, k);
    }
  }

  lemma {:induction false} GapChain(onsets: seq<nat>, n: nat, j: nat, k: nat)
    requires forall m :: 0 <= m < |onsets| - 1 ==> onsets[m] + n <= onsets[m + 1]
    requires j < k < |onsets|
    ensures onsets[j] + n <= onsets[k]
  {
    if j + 1 < k {
      GapChain(onsets, n, j, k - 1);
      assert onsets[k - 1] + n <= onsets[k];
    }
  }
}
