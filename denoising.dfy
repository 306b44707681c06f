/**
 * `remove_gradients`: argument normalisation, event selection, cycle length,
 * per-channel and per-cycle template subtraction on a copy of the recording.
 * The recording is a channels-by-samples array; the annotation parser and the
 * epoching library are replaced by their results (events, a label-to-code map,
 * and slicing of the original signal).
 */
module Denoising {
  import opened Wrappers
  import opened Stats
  import opened Triggers
  import opened Templates
  import opened Reconstruction

  datatype Error =
    | UnknownLabel(name: string)       // the label is not among the annotation codes
    | TooFewEvents(found: nat)         // fewer than two events carry the label's code
    | NonPositiveCycle(trSamples: int) // the first two events do not span a positive interval
    | CycleOutOfRange                  // some cycle would run past the end of the recording

  /** What the subtraction works with once the arguments and the events are checked. */
  datatype Plan = Plan(onsets: seq<nat>, nTimes: nat, window: WindowSpec)

  /** Every cycle of the plan lies inside a recording of `nSamples` samples. */
  predicate ValidPlan(p: Plan, nSamples: nat)
  {
    |p.onsets| > 0 && p.nTimes > 0
    && forall j :: 0 <= j < |p.onsets| ==> p.onsets[j] + p.nTimes <= nSamples
  }

  /** The repetition time in samples: the gap between the first two selected events. */
  function TrSamples(onsets: seq<nat>): int
    requires |onsets| >= 2
  {
    onsets[1] as int - onsets[0]
  }

  /**
   * Arguments and events to a plan, or the error the call stops with: an unknown
   * label, fewer than two matching events, a non-positive cycle, or a cycle that
   * does not fit in the recording.
   */
  function Prepare(events: seq<Event>, eventId: map<string, int>, eventName: string,
                   windowLength: Option<nat>, nSamples: nat): (r: Result<Plan, Error>)
    ensures r == Failure(UnknownLabel(eventName)) <==> eventName !in eventId
    ensures r.Failure? && r.error.TooFewEvents? <==>
              eventName in eventId && |Matching(events, eventId[eventName])| < 2
    ensures r.Failure? && r.error.NonPositiveCycle? <==>
              eventName in eventId
              && var m := Onsets(Matching(events, eventId[eventName]));
              |m| >= 2 && m[1] <= m[0]
    ensures r.Failure? && r.error.NonPositiveCycle? ==>
              var m := Onsets(Matching(events, eventId[eventName]));
              r.error.trSamples == m[1] as int - m[0]
    ensures r == Failure(CycleOutOfRange) <==>
              eventName in eventId
              && var m := Onsets(Matching(events, eventId[eventName]));
              |m| >= 2 && m[0] < m[1]
              && exists j :: 0 <= j < |m| && m[j] + (m[1] - m[0]) > nSamples
    ensures r.Success? <==>
              eventName in eventId
              && var m := Onsets(Matching(events, eventId[eventName]));
              |m| >= 2 && m[0] < m[1]
              && forall j :: 0 <= j < |m| ==> m[j] + (m[1] - m[0]) <= nSamples
    ensures r.Success? ==>
              ValidPlan(r.value, nSamples) && |r.value.onsets| >= 2
              && r.value.onsets == Onsets(Matching(events, eventId[eventName]))
              && r.value.nTimes == r.value.onsets[1] - r.value.onsets[0]
              && r.value.window == NormaliseWindow(windowLength)
  {
    if eventName !in eventId then Failure(UnknownLabel(eventName))
    else
      var relevant := Matching(events, eventId[eventName]);
      if |relevant| < 2 then Failure(TooFewEvents(|relevant|))
      else
        var onsets := Onsets(relevant);
        var tr := TrSamples(onsets);
        if tr <= 0 then Failure(NonPositiveCycle(tr))
        else if exists j :: 0 <= j < |onsets| && onsets[j] + tr > nSamples then Failure(CycleOutOfRange)
        else Success(Plan(onsets, tr, NormaliseWindow(windowLength)))
  }

  /** One cycle per event: samples `[onset, onset + nTimes)` of the channel's original row. */
  function Epochs(row: seq<real>, onsets: seq<nat>, nTimes: nat): (cycles: seq<seq<real>>)
    requires forall j :: 0 <= j < |onsets| ==> onsets[j] + nTimes <= |row|
    ensures |cycles| == |onsets| && Uniform(cycles, nTimes)
    ensures forall j, t :: 0 <= j < |onsets| && 0 <= t < nTimes ==> cycles[j][t] == row[onsets[j] + t]
  {
    seq(|onsets|, j requires 0 <= j < |onsets| => row[onsets[j]..onsets[j] + nTimes])
  }

  /** The template of every cycle of one channel, built from that channel's original row only. */
  function ChannelTemplates(row: seq<real>, p: Plan, corr: Correction): (tpls: seq<seq<real>>)
    requires ValidPlan(p, |row|) && Fits(corr, p.nTimes)
    ensures |tpls| == |p.onsets|
    ensures forall i :: 0 <= i < |tpls| ==> |tpls[i]| == p.nTimes
  {
    var cycles := Epochs(row, p.onsets, p.nTimes);
    seq(|p.onsets|, i requires 0 <= i < |p.onsets| => Template(cycles, p.window, corr, i, p.nTimes))
  }

  /** Every row has `width` samples. */
  predicate Rectangular(sig: seq<seq<real>>, width: nat)
  {
    forall c :: 0 <= c < |sig| ==> |sig[c]| == width
  }

  /** The cleaned recording: each row with its own templates subtracted, event by event. */
  function Cleaned(sig: seq<seq<real>>, width: nat, p: Plan, corr: Correction): (out: seq<seq<real>>)
    requires Rectangular(sig, width) && ValidPlan(p, width) && Fits(corr, p.nTimes)
    ensures |out| == |sig| && Rectangular(out, width)
  {
    seq(|sig|, c requires 0 <= c < |sig| =>
      CleanedRow(sig[c], p.onsets, ChannelTemplates(sig[c], p, corr), |p.onsets|))
  }

  /** A sample outside every cycle region keeps its input value. */
  lemma CleanedPassThrough(sig: seq<seq<real>>, width: nat, p: Plan, corr: Correction, c: nat, s: nat)
    requires Rectangular(sig, width) && ValidPlan(p, width) && Fits(corr, p.nTimes)
    requires c < |sig| && s < width
    requires forall j :: 0 <= j < |p.onsets| ==> !(p.onsets[j] <= s < p.onsets[j] + p.nTimes)
    ensures Cleaned(sig, width, p, corr)[c][s] == sig[c][s]
  {
    PassThrough(sig[c], p.onsets, ChannelTemplates(sig[c], p, corr), |p.onsets|, s);
  }

  /**
   * With disjoint cycle regions, sample `t` of cycle `i` becomes the original sample
   * minus sample `t` of the template built from that channel's original cycles.
   */
  lemma CleanedCycleRegion(sig: seq<seq<real>>, width: nat, p: Plan, corr: Correction, c: nat, i: nat, t: nat)
    requires Rectangular(sig, width) && ValidPlan(p, width) && Fits(corr, p.nTimes)
    requires Disjoint(p.onsets, p.nTimes)
    requires c < |sig| && i < |p.onsets| && t < p.nTimes
    ensures Cleaned(sig, width, p, corr)[c][p.onsets[i] + t]
         == sig[c][p.onsets[i] + t] - Template(Epochs(sig[c], p.onsets, p.nTimes), p.window, corr, i, p.nTimes)[t]
  {
    ExactRegion(sig[c], p.onsets, ChannelTemplates(sig[c], p, corr), p.nTimes, |p.onsets|, i, t);
  }

  /**
   * When every cycle of a channel is the same waveform `a` (an artifact locked to the
   * triggers) and the regions are disjoint, each cleaned cycle sample is the constant
   * the baseline policy removed from the template: zero without correction.
   */
  lemma PeriodicArtifactRemoved(sig: seq<seq<real>>, width: nat, p: Plan, corr: Correction, c: nat, a: seq<real>, i: nat, t: nat)
    requires Rectangular(sig, width) && ValidPlan(p, width) && Fits(corr, p.nTimes)
    requires Disjoint(p.onsets, p.nTimes) && |a| == p.nTimes
    requires c < |sig| && forall j :: 0 <= j < |p.onsets| ==> sig[c][p.onsets[j]..p.onsets[j] + p.nTimes] == a
    requires i < |p.onsets| && t < p.nTimes
    ensures Cleaned(sig, width, p, corr)[c][p.onsets[i] + t] == BaselineOffset(a, corr)
    ensures corr.NoCorrection? ==> Cleaned(sig, width, p, corr)[c][p.onsets[i] + t] == 0.0
  {
    var cycles := Epochs(sig[c], p.onsets, p.nTimes);
    var b := Window(p.window, i, |cycles|);
    WindowMeanOfIdentical(cycles, a, b.0, b.1);
    ApplyCorrectionShifts(a, corr, t);
    CleanedCycleRegion(sig, width, p, corr, c, i, t);
    assert sig[c][p.onsets[i] + t] == a[t];
  }

  /**
   * Cleaning separates a trigger-locked waveform from the rest of the signal: if on every
   * cycle region channel `c` of `sig` is channel `c` of `clean` plus the waveform `a`, and
   * the regions are disjoint, each cleaned cycle sample of `sig` is the cleaned sample of
   * `clean` plus the constant the baseline policy removes from `a` (zero with correction off).
   */
  lemma LockedArtifactSeparates(sig: seq<seq<real>>, clean: seq<seq<real>>, width: nat, p: Plan,
                                corr: Correction, c: nat, a: seq<real>, i: nat, t: nat)
    requires Rectangular(sig, width) && Rectangular(clean, width) && ValidPlan(p, width) && Fits(corr, p.nTimes)
    requires Disjoint(p.onsets, p.nTimes) && |a| == p.nTimes
    requires c < |sig| && c < |clean|
    requires forall j, u :: 0 <= j < |p.onsets| && 0 <= u < p.nTimes ==>
               sig[c][p.onsets[j] + u] == clean[c][p.onsets[j] + u] + a[u]
    requires i < |p.onsets| && t < p.nTimes
    ensures Cleaned(sig, width, p, corr)[c][p.onsets[i] + t]
         == Cleaned(clean, width, p, corr)[c][p.onsets[i] + t] + BaselineOffset(a, corr)
    ensures corr.NoCorrection? ==>
              Cleaned(sig, width, p, corr)[c][p.onsets[i] + t] == Cleaned(clean, width, p, corr)[c][p.onsets[i] + t]
  {
    var cy := Epochs(sig[c], p.onsets, p.nTimes);
    var cx := Epochs(clean[c], p.onsets, p.nTimes);
    var ca := seq(|p.onsets|, j requires 0 <= j < |p.onsets| => a);
    TemplateAdditive(cx, ca, cy, p.window, corr, i, p.nTimes, t);
    var b := Window(p.window, i, |ca|);
    WindowMeanOfIdentical(ca, a, b.0, b.1);
    ApplyCorrectionShifts(a, corr, t);
    CleanedCycleRegion(sig, width, p, corr, c, i, t);
    CleanedCycleRegion(clean, width, p, corr, c, i, t);
  }

  /** When later events are at least one cycle apart, as the first two are, the regions are disjoint. */
  lemma EvenSpacingGivesDisjointRegions(events: seq<Event>, eventId: map<string, int>, eventName: string,
                                        windowLength: Option<nat>, nSamples: nat)
    requires Prepare(events, eventId, eventName, windowLength, nSamples).Success?
    requires var m := Onsets(Matching(events, eventId[eventName]));
             forall k :: 0 <= k < |m| - 1 ==> m[k] + (m[1] - m[0]) <= m[k + 1]
    ensures var p := Prepare(events, eventId, eventName, windowLength, nSamples).value;
            Disjoint(p.onsets, p.nTimes)
  {
    var p := Prepare(events, eventId, eventName, windowLength, nSamples).value;
    assert p.onsets == Onsets(Matching(events, eventId[eventName]));
    IncreasingGapsAreDisjoint(p.onsets, p.nTimes);
  }

  /** With `tr_sec = nTimes / sfreq`, an interval's indices are its offsets times `sfreq`, truncated. */
  lemma IntervalIndicesAreSampleOffsets(enabled: bool, baseline: Option<(real, real)>, nTimes: nat, sfreq: real)
    requires nTimes > 0 && sfreq > 0.0
    ensures var c := CorrectionFor(enabled, baseline, (nTimes as real) / sfreq, nTimes);
            c.Interval? ==>
              baseline.Some?
              && c.lo == Trunc(baseline.value.0 * sfreq)
              && c.hi == Trunc(baseline.value.1 * sfreq)
  {
    if enabled && baseline.Some? {
      BaselineIndexIsSampleOffset(baseline.value.0, nTimes, sfreq);
      BaselineIndexIsSampleOffset(baseline.value.1, nTimes, sfreq);
    }
  }

  /**
   * The baseline policy of the call, for cycles of `p.nTimes` samples at rate `sfreq`:
   * the repetition time in seconds is `p.nTimes / sfreq`, so an interval's indices are
   * its offsets times the sampling rate, truncated.
   */
  function CorrectionOf(p: Plan, enabled: bool, baseline: Option<(real, real)>, sfreq: real): (c: Correction)
    requires p.nTimes > 0 && sfreq > 0.0
    ensures !enabled <==> c.NoCorrection?
    ensures enabled && baseline.None? <==> c.WholeCycle?
    ensures c.Interval? ==>
              baseline.Some?
              && c.lo == Trunc(baseline.value.0 * sfreq)
              && c.hi == Trunc(baseline.value.1 * sfreq)
  {
    IntervalIndicesAreSampleOffsets(enabled, baseline, p.nTimes, sfreq);
    CorrectionFor(enabled, baseline, (p.nTimes as real) / sfreq, p.nTimes)
  }

  /** A baseline interval, if one is used, maps to a non-empty range of cycle samples. */
  predicate BaselineInRange(prep: Result<Plan, Error>, enabled: bool, baseline: Option<(real, real)>, sfreq: real)
    requires sfreq > 0.0
  {
    prep.Success? && prep.value.nTimes > 0 ==>
      Fits(CorrectionOf(prep.value, enabled, baseline, sfreq), prep.value.nTimes)
  }

  /** Row `c` of a recording. */
  function RowOf(a: array2<real>, c: nat): (row: seq<real>)
    reads a
    requires c < a.Length0
    ensures |row| == a.Length1
  {
    seq(a.Length1, s requires 0 <= s < a.Length1 reads a => a[c, s])
  }

  /** All rows of a recording. */
  function Rows(a: array2<real>): (sig: seq<seq<real>>)
    reads a
    ensures |sig| == a.Length0 && Rectangular(sig, a.Length1)
  {
    seq(a.Length0, c requires 0 <= c < a.Length0 reads a => RowOf(a, c))
  }

  /** An independent copy of the recording, made before any processing (denoising.py:14). */
  method CopySignal(data: array2<real>) returns (out: array2<real>)
    ensures fresh(out)
    ensures out.Length0 == data.Length0 && out.Length1 == data.Length1
    ensures forall c, s :: 0 <= c < out.Length0 && 0 <= s < out.Length1 ==> out[c, s] == data[c, s]
  {
    out := new real[data.Length0, data.Length1]((c, s) reads data =>
      if 0 <= c < data.Length0 && 0 <= s < data.Length1 then data[c, s] else 0.0);
  }

  /**
   * Baseline correction of the template buffer in place (denoising.py:79 and :81): the mean over
   * `[lo, hi)` is taken first, then subtracted from every sample of the buffer.
   */
  method CorrectBaselineInPlace(noise: array<real>, lo: nat, hi: nat)
    requires lo < hi <= noise.Length
    modifies noise
    ensures noise[..] == BaselineCorrected(old(noise[..]), lo, hi)
  {
    var m := Mean(noise[lo..hi]);
    for t := 0 to noise.Length
      invariant forall k :: 0 <= k < t ==> noise[k] == old(noise[k]) - m
      invariant forall k :: t <= k < noise.Length ==> noise[k] == old(noise[k])
    {
      noise[t] := noise[t] - m;
    }
  }

  /** The template buffer of cycle `i`: the windowed mean, then the baseline policy in place. */
  method BuildTemplate(cycles: seq<seq<real>>, spec: WindowSpec, corr: Correction, i: nat, nTimes: nat)
    returns (noise: array<real>)
    requires i < |cycles| && Uniform(cycles, nTimes) && Fits(corr, nTimes)
    ensures fresh(noise) && noise[..] == Template(cycles, spec, corr, i, nTimes)
  {
    var b := Window(spec, i, |cycles|);
    var avg := WindowMean(cycles, b.0, b.1, nTimes);
    noise := new real[nTimes](t requires 0 <= t < nTimes => avg[t]);
    assert noise[..] == avg;
    match corr {
      case NoCorrection =>
      case WholeCycle =>
        CorrectBaselineInPlace(noise, 0, nTimes);
      case Interval(lo, hi) =>
        CorrectBaselineInPlace(noise, lo, hi);
    }
  }

  /** In-place subtraction of a template from one cycle region of row `ch` (denoising.py:86); nothing else changes. */
  method SubtractRegion(out: array2<real>, ch: nat, onset: nat, noise: array<real>)
    requires ch < out.Length0 && onset + noise.Length <= out.Length1
    modifies out
    ensures forall s :: 0 <= s < out.Length1 ==> out[ch, s] == SubtractAt(old(RowOf(out, ch)), onset, noise[..])[s]
    ensures forall c, s :: 0 <= c < out.Length0 && c != ch && 0 <= s < out.Length1 ==> out[c, s] == old(out[c, s])
  {
    for t := 0 to noise.Length
      invariant forall s :: 0 <= s < out.Length1 ==>
                  out[ch, s] == if onset <= s < onset + t then old(out[ch, s]) - noise[s - onset] else old(out[ch, s])
      invariant forall c, s :: 0 <= c < out.Length0 && c != ch && 0 <= s < out.Length1 ==> out[c, s] == old(out[c, s])
    {
      out[ch, onset + t] := out[ch, onset + t] - noise[t];
    }
  }

  /**
   * The event loop for channel `ch`: the cycles are cut from `row`, the channel's
   * original samples, and each template is subtracted from the current contents.
   */
  method CleanChannel(out: array2<real>, ch: nat, row: seq<real>, p: Plan, corr: Correction)
    requires ch < out.Length0 && |row| == out.Length1 && ValidPlan(p, |row|) && Fits(corr, p.nTimes)
    modifies out
    ensures forall s :: 0 <= s < out.Length1 ==>
              out[ch, s] == CleanedRow(old(RowOf(out, ch)), p.onsets, ChannelTemplates(row, p, corr), |p.onsets|)[s]
    ensures forall c, s :: 0 <= c < out.Length0 && c != ch && 0 <= s < out.Length1 ==> out[c, s] == old(out[c, s])
  {
    var cycles := Epochs(row, p.onsets, p.nTimes);
    ghost var start := RowOf(out, ch);
    ghost var tpls := ChannelTemplates(row, p, corr);
    for i := 0 to |p.onsets|
      invariant forall s :: 0 <= s < out.Length1 ==> out[ch, s] == CleanedRow(start, p.onsets, tpls, i)[s]
      invariant forall c, s :: 0 <= c < out.Length0 && c != ch && 0 <= s < out.Length1 ==> out[c, s] == old(out[c, s])
    {
      var noise := BuildTemplate(cycles, p.window, corr, i, p.nTimes);
      assert noise[..] == tpls[i];
      assert RowOf(out, ch) == CleanedRow(start, p.onsets, tpls, i);
      SubtractRegion(out, ch, p.onsets[i], noise);
    }
  }

  /**
   * The whole call: a copy of `data` with every cycle's template subtracted, or the
   * error that stops it. `data` itself is never modified.
   */
  method RemoveGradients(data: array2<real>, events: seq<Event>, eventId: map<string, int>, eventName: string,
                         windowLength: Option<nat>, baselineCorrection: bool, baseline: Option<(real, real)>,
                         sfreq: real)
    returns (r: Result<array2<real>, Error>)
    requires sfreq > 0.0
    requires BaselineInRange(Prepare(events, eventId, eventName, windowLength, data.Length1),
                             baselineCorrection, baseline, sfreq)
    ensures var prep := Prepare(events, eventId, eventName, windowLength, data.Length1);
            prep.Failure? ==> r == Failure(prep.error)
    ensures var prep := Prepare(events, eventId, eventName, windowLength, data.Length1);
            prep.Success? ==>
              r.Success? && fresh(r.value)
              && r.value.Length0 == data.Length0 && r.value.Length1 == data.Length1
              && var corr := CorrectionOf(prep.value, baselineCorrection, baseline, sfreq);
              forall c, s :: 0 <= c < data.Length0 && 0 <= s < data.Length1 ==>
                r.value[c, s] == Cleaned(Rows(data), data.Length1, prep.value, corr)[c][s]
  {
    var out := CopySignal(data);
    var prep := Prepare(events, eventId, eventName, windowLength, data.Length1);
    if prep.Failure? {
      return Failure(prep.error);
    }
    var p := prep.value;
    var corr := CorrectionOf(p, baselineCorrection, baseline, sfreq);
    ghost var sig := Rows(data);
    for ch := 0 to data.Length0
      invariant forall c, s :: 0 <= c < ch && 0 <= s < data.Length1 ==>
                  out[c, s] == Cleaned(sig, data.Length1, p, corr)[c][s]
      invariant forall c, s :: ch <= c < data.Length0 && 0 <= s < data.Length1 ==> out[c, s] == data[c, s]
    {
      assert RowOf(out, ch) == sig[ch];
      CleanChannel(out, ch, RowOf(data, ch), p, corr);
    }
    return Success(out);
  }
}
