/**
 * The template builder: how the window argument is normalised, which cycles
 * a window covers, the sample-wise mean over those cycles, and the optional
 * baseline correction of the mean.
 */
module Templates {
  import opened Wrappers
  import opened Stats

  /** Either all cycles of a channel, or a window of `2 * halfWidth + 1` neighbours. */
  datatype WindowSpec = Global | Sliding(halfWidth: nat)

  /** Baseline policy, with the interval already mapped to sample indices. */
  datatype Correction = NoCorrection | WholeCycle | Interval(lo: int, hi: int)

  /** An even window length is raised by one; an odd one is kept. */
  function OddWindow(windowLength: nat): (r: nat)
    ensures r % 2 == 1
    ensures windowLength % 2 == 1 <==> r == windowLength
    ensures windowLength % 2 == 0 <==> r == windowLength + 1
  {
    if windowLength % 2 == 0 then windowLength + 1 else windowLength
  }

  /**
   * Window argument to window policy: no length selects all cycles, a length
   * selects a half-width of `length // 2` after odd normalisation.
   */
  function NormaliseWindow(windowLength: Option<nat>): (w: WindowSpec)
    ensures windowLength.None? <==> w.Global?
    ensures windowLength.Some? ==> w.Sliding? && w.halfWidth == windowLength.value / 2
    ensures windowLength.Some? ==> 2 * w.halfWidth + 1 == OddWindow(windowLength.value)
  {
    match windowLength
    case None => Global
    case Some(n) => Sliding(OddWindow(n) / 2)
  }

  /**
   * Cycles `[start, stop)` averaged for cycle `i` of `n` with half-width `h`:
   * the symmetric window around `i`, cut off (not wrapped) at both ends.
   */
  function WindowBounds(i: nat, h: nat, n: nat): (b: (nat, nat))
    requires i < n
    ensures b.0 <= i < b.1 <= n
    ensures b.1 - b.0 <= 2 * h + 1
    ensures h <= i && i + h < n ==> b.1 - b.0 == 2 * h + 1
    ensures i <= h ==> b.0 == 0
    ensures h < i ==> b.0 == i - h
    ensures n <= i + h ==> b.1 == n
    ensures i + h < n ==> b.1 == i + h + 1
  {
    (if i < h then 0 else i - h, if n < i + h + 1 then n else i + h + 1)
  }

  /** Lengths 4 and 5 both give half-width 2; with 10 cycles the first and last windows hold 3. */
  lemma BoundaryClampExample()
    ensures NormaliseWindow(Some(4)) == NormaliseWindow(Some(5)) == Sliding(2)
    ensures WindowBounds(0, 2, 10) == (0, 3) && WindowBounds(9, 2, 10) == (7, 10)
  {
  }

  /** The cycles averaged for cycle `i` of `n` under a window policy. */
  function Window(spec: WindowSpec, i: nat, n: nat): (b: (nat, nat))
    requires i < n
    ensures b.0 <= i < b.1 <= n
    ensures spec.Global? ==> b == (0, n)
  {
    match spec
    case Global => (0, n)
    case Sliding(h) => WindowBounds(i, h, n)
  }

  /** All cycles have `nTimes` samples. */
  predicate Uniform(cycles: seq<seq<real>>, nTimes: nat)
  {
    forall j :: 0 <= j < |cycles| ==> |cycles[j]| == nTimes
  }

  /** Sample `t` of every cycle. */
  function Column(cycles: seq<seq<real>>, t: nat): seq<real>
    requires forall j :: 0 <= j < |cycles| ==> t < |cycles[j]|
  {
    seq(|cycles|, j requires 0 <= j < |cycles| => cycles[j][t])
  }

  /** The sample-wise mean over cycles `[lo, hi)`: sample `t` averages sample `t` of each cycle (denoising.py:72). */
  function WindowMean(cycles: seq<seq<real>>, lo: nat, hi: nat, nTimes: nat): (m: seq<real>)
    requires lo < hi <= |cycles| && Uniform(cycles, nTimes)
    ensures |m| == nTimes
  {
    seq(nTimes, t requires 0 <= t < nTimes => Mean(Column(cycles[lo..hi], t)))
  }

  /** The template minus its own mean over `[lo, hi)`. */
  function BaselineCorrected(tpl: seq<real>, lo: nat, hi: nat): seq<real>
    requires lo < hi <= |tpl|
  {
    Shifted(tpl, Mean(tpl[lo..hi]))
  }

  /** After correction, the template has mean zero over the baseline samples. */
  lemma BaselineCorrectedZeroMean(tpl: seq<real>, lo: nat, hi: nat)
    requires lo < hi <= |tpl|
    ensures Mean(BaselineCorrected(tpl, lo, hi)[lo..hi]) == 0.0
  {
    var m := Mean(tpl[lo..hi]);
    assert BaselineCorrected(tpl, lo, hi)[lo..hi] == Shifted(tpl[lo..hi], m);
    MeanShifted(tpl[lo..hi], m);
  }

  /** The correction is usable on a template of `n` samples. */
  predicate Fits(corr: Correction, n: nat)
  {
    match corr
    case NoCorrection => true
    case WholeCycle => 0 < n
    case Interval(lo, hi) => 0 <= lo < hi <= n
  }

  /**
   * The template after the baseline policy: unchanged when correction is
   * off, zero-mean when no interval is given, zero-mean over the interval
   * otherwise; in every case only shifted by a constant.
   */
  function ApplyCorrection(tpl: seq<real>, corr: Correction): (r: seq<real>)
    requires Fits(corr, |tpl|)
    ensures |r| == |tpl|
    ensures corr.NoCorrection? ==> r == tpl
    ensures corr.WholeCycle? ==> Mean(r) == 0.0
    ensures corr.Interval? ==> Mean(r[corr.lo..corr.hi]) == 0.0
  {
    match corr
    case NoCorrection => tpl
    case WholeCycle =>
      BaselineCorrectedZeroMean(tpl, 0, |tpl|);
      assert BaselineCorrected(tpl, 0, |tpl|)[0..|tpl|] == BaselineCorrected(tpl, 0, |tpl|);
      BaselineCorrected(tpl, 0, |tpl|)
    case Interval(lo, hi) =>
      BaselineCorrectedZeroMean(tpl, lo, hi);
      BaselineCorrected(tpl, lo, hi)
  }

  /** The constant that the baseline policy subtracts from every template sample. */
  function BaselineOffset(tpl: seq<real>, corr: Correction): real
    requires Fits(corr, |tpl|)
  {
    match corr
    case NoCorrection => 0.0
    case WholeCycle => Mean(tpl)
    case Interval(lo, hi) => Mean(tpl[lo..hi])
  }

  /** Baseline correction shifts every template sample by the same offset. */
  lemma ApplyCorrectionShifts(tpl: seq<real>, corr: Correction, t: nat)
    requires Fits(corr, |tpl|) && t < |tpl|
    ensures ApplyCorrection(tpl, corr)[t] == tpl[t] - BaselineOffset(tpl, corr)
  {
    if corr.WholeCycle? {
      assert tpl[0..|tpl|] == tpl;
    }
  }

  /** The offset the baseline policy removes is additive over sample-wise sums. */
  lemma BaselineOffsetAdditive(u: seq<real>, v: seq<real>, corr: Correction)
    requires |u| == |v| && Fits(corr, |u|)
    ensures BaselineOffset(Added(u, v), corr) == BaselineOffset(u, corr) + BaselineOffset(v, corr)
  {
    match corr
    case NoCorrection =>
    case WholeCycle =>
      MeanAdded(u, v);
    case Interval(lo, hi) =>
      assert Added(u, v)[lo..hi] == Added(u[lo..hi], v[lo..hi]);
      MeanAdded(u[lo..hi], v[lo..hi]);
  }

  /** The artifact template for cycle `i`: the windowed mean, then the baseline policy. */
  function Template(cycles: seq<seq<real>>, spec: WindowSpec, corr: Correction, i: nat, nTimes: nat): (tpl: seq<real>)
    requires i < |cycles| && Uniform(cycles, nTimes) && Fits(corr, nTimes)
    ensures |tpl| == nTimes
  {
    var b := Window(spec, i, |cycles|);
    ApplyCorrection(WindowMean(cycles, b.0, b.1, nTimes), corr)
  }

  /** In global mode every cycle of a channel gets the same template, the mean of all cycles. */
  lemma GlobalTemplateIsShared(cycles: seq<seq<real>>, corr: Correction, i: nat, j: nat, nTimes: nat)
    requires i < |cycles| && j < |cycles| && Uniform(cycles, nTimes) && Fits(corr, nTimes)
    ensures Template(cycles, Global, corr, i, nTimes) == Template(cycles, Global, corr, j, nTimes)
    ensures Template(cycles, Global, corr, i, nTimes) == ApplyCorrection(WindowMean(cycles, 0, |cycles|, nTimes), corr)
  {
  }

  /** A sliding window at least as wide as the recording degenerates to global mode. */
  lemma WideWindowIsGlobal(cycles: seq<seq<real>>, h: nat, corr: Correction, i: nat, nTimes: nat)
    requires i < |cycles| && Uniform(cycles, nTimes) && Fits(corr, nTimes)
    requires |cycles| <= h + 1
    ensures Template(cycles, Sliding(h), corr, i, nTimes) == Template(cycles, Global, corr, i, nTimes)
  {
  }

  /**
   * Templates are linear in the cycles: when every cycle of `cy` is the sample-wise sum of
   * the cycles of `cx` and `ca`, its template is the sum of their templates.
   */
  lemma TemplateAdditive(cx: seq<seq<real>>, ca: seq<seq<real>>, cy: seq<seq<real>>, spec: WindowSpec,
                         corr: Correction, i: nat, nTimes: nat, t: nat)
    requires |cx| == |ca| == |cy| && i < |cy| && t < nTimes && Fits(corr, nTimes)
    requires Uniform(cx, nTimes) && Uniform(ca, nTimes) && Uniform(cy, nTimes)
    requires forall j, u :: 0 <= j < |cy| && 0 <= u < nTimes ==> cy[j][u] == cx[j][u] + ca[j][u]
    ensures Template(cy, spec, corr, i, nTimes)[t]
         == Template(cx, spec, corr, i, nTimes)[t] + Template(ca, spec, corr, i, nTimes)[t]
  {
    var b := Window(spec, i, |cy|);
    var mx := WindowMean(cx, b.0, b.1, nTimes);
    var ma := WindowMean(ca, b.0, b.1, nTimes);
    var my := WindowMean(cy, b.0, b.1, nTimes);
    forall u | 0 <= u < nTimes
      ensures my[u] == mx[u] + ma[u]
    {
      assert Column(cy[b.0..b.1], u) == Added(Column(cx[b.0..b.1], u), Column(ca[b.0..b.1], u));
      MeanAdded(Column(cx[b.0..b.1], u), Column(ca[b.0..b.1], u));
    }
    assert my == Added(mx, ma);
    BaselineOffsetAdditive(mx, ma, corr);
    ApplyCorrectionShifts(mx, corr, t);
    ApplyCorrectionShifts(ma, corr, t);
    ApplyCorrectionShifts(my, corr, t);
  }

  /** Averaging cycles that all equal `a` gives back `a`. */
  lemma WindowMeanOfIdentical(cycles: seq<seq<real>>, a: seq<real>, lo: nat, hi: nat)
    requires lo < hi <= |cycles| && Uniform(cycles, |a|)
    requires forall j :: lo <= j < hi ==> cycles[j] == a
    ensures WindowMean(cycles, lo, hi, |a|) == a
  {
    forall t | 0 <= t < |a|
      ensures WindowMean(cycles, lo, hi, |a|)[t] == a[t]
    {
      MeanOfConstant(Column(cycles[lo..hi], t), a[t]);
    }
  }

  /** Each windowed-mean sample lies within the range of that sample over the window. */
  lemma WindowMeanBounds(cycles: seq<seq<real>>, lo: nat, hi: nat, nTimes: nat, t: nat, low: real, high: real)
    requires lo < hi <= |cycles| && Uniform(cycles, nTimes) && t < nTimes
    requires forall j :: lo <= j < hi ==> low <= cycles[j][t] <= high
    ensures low <= WindowMean(cycles, lo, hi, nTimes)[t] <= high
  {
    MeanBounds(Column(cycles[lo..hi], t), low, high);
  }

  /** Python's `int(x)`: truncation toward zero. */
  function Trunc(x: real): (r: int)
    ensures 0.0 <= x ==> r as real <= x < r as real + 1.0
    ensures x < 0.0 ==> r as real - 1.0 < x <= r as real
  {
    if 0.0 <= x then x.Floor else -((-x).Floor)
  }

  /** A baseline offset in seconds mapped to a sample index within the cycle. */
  function BaselineIndex(t: real, trSec: real, nTimes: nat): int
    requires trSec > 0.0
  {
    Trunc((t / trSec) * (nTimes as real))
  }

  /**
   * With the cycle lasting `nTimes` samples at rate `sfreq`, the index of an offset is
   * the offset times the sampling rate, truncated.
   */
  lemma BaselineIndexIsSampleOffset(t: real, nTimes: nat, sfreq: real)
    requires nTimes > 0 && sfreq > 0.0
    ensures BaselineIndex(t, (nTimes as real) / sfreq, nTimes) == Trunc(t * sfreq)
  {
  }

  /** The baseline arguments mapped to a correction policy for cycles of `nTimes` samples. */
  function CorrectionFor(enabled: bool, baseline: Option<(real, real)>, trSec: real, nTimes: nat): (c: Correction)
    requires trSec > 0.0
    ensures !enabled <==> c.NoCorrection?
    ensures enabled && baseline.None? <==> c.WholeCycle?
    ensures c.Interval? ==>
              enabled && baseline.Some?
              && c.lo == BaselineIndex(baseline.value.0, trSec, nTimes)
              && c.hi == BaselineIndex(baseline.value.1, trSec, nTimes)
  {
    if !enabled then NoCorrection
    else match baseline
      case None => WholeCycle
      case Some(b) => Interval(BaselineIndex(b.0, trSec, nTimes), BaselineIndex(b.1, trSec, nTimes))
  }
}
