# Gradient-artifact removal, modelled in Dafny

This project models `remove_gradients` from `src/eegfmri_denoising/denoising.py`.
The routine cleans an EEG recording made inside an MRI scanner. The scanner's gradient
switching adds a periodic artifact, and each repetition (TR) is marked by a trigger
event. The routine:

1. normalises the window argument (an even length becomes odd; no length means all cycles);
2. selects the trigger events with the requested label;
3. takes the cycle length (TR in samples) from the gap between the first two of them;
4. cuts one cycle per event from the original signal;
5. averages, per channel and per cycle, either all cycles or a clamped sliding window
   of neighbouring cycles;
6. optionally baseline-corrects that template;
7. subtracts it in place from the cycle's region of a copy of the recording.

Modules, one per stage:

- `Wrappers`: `Option` and `Result`.
- `Stats`: exact sums and means over `real`, with lemmas on constants, shifts and bounds.
- `Triggers`: events as `(sample, code)` pairs and the label filter.
- `Templates`: window normalisation, window bounds, windowed mean, baseline correction,
  and the mapping from seconds to baseline indices.
- `Reconstruction`: region subtraction and the event-by-event cleaned row, with
  pass-through and exact-region lemmas.
- `Denoising`: argument and event checking (`Prepare`), epoching as slicing, the cleaned
  recording as a function, and the imperative methods. The methods are the copy, the
  channel loop, the event loop, the in-place baseline `-=` and the in-place region `-=`.

The recording is an `array2<real>` (channels × samples). The methods are proved against
the specification function `Cleaned`, and the lemmas state its properties.

Three points where the model follows the code closely:

- Baseline offsets become indices with `int(...)`, which truncates toward zero, not with rounding (`Templates.Trunc`).
- The routine returns only the cleaned recording (line 88); no array of cleaned cycles is returned.
- Cycle regions may overlap, since nothing in the code prevents it. They are subtracted one event after another, so overlapping samples receive every covering template (`Reconstruction.CleanedIsTotalSubtraction`).

## Model

| member | source | states |
|---|---|---|
| `Templates.OddWindow` | src/eegfmri_denoising/denoising.py:24-25 | the result is odd; it equals the argument exactly when the argument is odd, and is the argument plus one exactly when it is even |
| `Templates.NormaliseWindow` | src/eegfmri_denoising/denoising.py:61 | no length gives global mode; a length `w` gives a sliding window of half-width `w // 2`, whose width `2h+1` is the odd-normalised length |
| `Templates.BoundaryClampExample` | src/eegfmri_denoising/denoising.py:70-71 | lengths 4 and 5 both give half-width 2; with 10 cycles, cycle 0 averages `[0,3)` and cycle 9 averages `[7,10)` |
| `Templates.WindowBounds` | src/eegfmri_denoising/denoising.py:70-71 | `start <= i < stop <= N`; the width is at most `2h+1` and exactly `2h+1` when `h <= i < N-h`; at each end the window is clamped to 0 or N, never wrapped |
| `Templates.Window` | src/eegfmri_denoising/denoising.py:67-71 | the window contains the cycle itself, lies within the cycles, and is all cycles in global mode |
| `Templates.GlobalTemplateIsShared` | src/eegfmri_denoising/denoising.py:67-68 | in global mode every cycle of a channel gets the same template, the (corrected) mean of all its cycles |
| `Templates.WideWindowIsGlobal` | src/eegfmri_denoising/denoising.py:67-72 | a sliding half-width of at least `N-1` gives the global template |
| `Templates.WindowMean` | src/eegfmri_denoising/denoising.py:72 | the sample-wise mean over the window has one sample per cycle sample; its values are stated by `WindowMeanOfIdentical` and `WindowMeanBounds` |
| `Templates.Template` | src/eegfmri_denoising/denoising.py:67-81 | the template of cycle `i` is as long as a cycle; it is the window mean under the baseline policy, whose effect `ApplyCorrection` and `ApplyCorrectionShifts` state |
| `Templates.TemplateAdditive` | src/eegfmri_denoising/denoising.py:67-81 | when each cycle is the sample-wise sum of two cycle sets, its template is the sum of their templates, in both modes and under every baseline policy |
| `Templates.BaselineOffsetAdditive` | src/eegfmri_denoising/denoising.py:79-81 | the constant the baseline policy removes from a sum of two templates is the sum of the constants it removes from each |
| `Templates.WindowMeanOfIdentical` | src/eegfmri_denoising/denoising.py:72 | averaging cycles that are all equal to a waveform gives back that waveform |
| `Templates.WindowMeanBounds` | src/eegfmri_denoising/denoising.py:72 | each template sample lies between any lower and upper bound of that sample over the window's cycles |
| `Templates.BaselineCorrectedZeroMean` | src/eegfmri_denoising/denoising.py:79 | a template corrected over `[lo,hi)` (`BaselineCorrected`: every sample minus the mean over `[lo,hi)`) has mean zero over `[lo,hi)` |
| `Templates.ApplyCorrection` | src/eegfmri_denoising/denoising.py:75-81 | with correction off the template is the raw window mean; with no interval the corrected template has mean zero; with an interval it has mean zero over the interval |
| `Templates.ApplyCorrectionShifts` | src/eegfmri_denoising/denoising.py:79-81 | correction subtracts one constant (the baseline mean, or zero when off) from every template sample |
| `Templates.Trunc` | src/eegfmri_denoising/denoising.py:77-78 | `int(x)` truncates toward zero: within one below a non-negative `x`, within one above a negative `x` |
| `Templates.BaselineIndexIsSampleOffset` | src/eegfmri_denoising/denoising.py:77-78 | when the cycle lasts `n_times` samples at rate `sfreq`, the baseline index (`BaselineIndex`: the truncated `(t / tr_sec) * n_times`) of an offset is the offset times `sfreq`, truncated |
| `Templates.CorrectionFor` | src/eegfmri_denoising/denoising.py:75-78 | correction off gives no correction whatever the interval; on with no interval gives whole-cycle centring; an interval gives its two truncated indices |
| `Denoising.IntervalIndicesAreSampleOffsets` | src/eegfmri_denoising/denoising.py:77-78 | with `tr_sec = n_times / sfreq` (line 44), each baseline index `int((t / tr_sec) * n_times)` is the offset `t` times `sfreq`, truncated |
| `Denoising.CorrectionOf` | src/eegfmri_denoising/denoising.py:77-78 | the call's baseline policy, with `tr_sec = n_times / sfreq` as line 44 computes it: off exactly when correction is disabled, whole-cycle exactly when enabled without an interval, and otherwise the interval's offsets times `sfreq`, truncated |
| `Triggers.Matching` | src/eegfmri_denoising/denoising.py:34 | every kept event carries the code and comes from the input; every input event with the code is kept |
| `Triggers.MatchingAppend` | src/eegfmri_denoising/denoising.py:34 | the filter distributes over concatenation, so kept events stay in their original order |
| `Triggers.MatchingKeepsAll` | src/eegfmri_denoising/denoising.py:34 | the filter returns its input unchanged exactly when every event carries the code |
| `Denoising.Prepare` | src/eegfmri_denoising/denoising.py:30-42 | fails with an unknown label exactly when the label is not mapped; fails for too few events exactly when fewer than two match; fails with a non-positive cycle (carrying that gap) exactly when two or more match but the second onset is not after the first; fails with a cycle out of range exactly when the gap is positive but some cycle runs past the recording; succeeds exactly in the remaining case; on success the onsets are the matching events' samples in order and the cycle length (`TrSamples`) is the second onset minus the first |
| `Denoising.EvenSpacingGivesDisjointRegions` | src/eegfmri_denoising/denoising.py:42 | if no later gap is shorter than the first one, the cycle regions do not overlap |
| `Denoising.Epochs` | src/eegfmri_denoising/denoising.py:49-64 | one cycle per event, each `n_times` long, with sample `t` of cycle `j` equal to sample `onset_j + t` of the original row |
| `Denoising.ChannelTemplates` | src/eegfmri_denoising/denoising.py:64-81 | one template per event per channel, each as long as a cycle, built only from that channel's original row |
| `Denoising.Cleaned` | src/eegfmri_denoising/denoising.py:63-88 | the cleaned recording has the input's channel count and sample count |
| `Denoising.CleanedPassThrough` | src/eegfmri_denoising/denoising.py:84-86 | a sample outside every `[onset, onset+n_times)` region equals the input sample |
| `Denoising.CleanedCycleRegion` | src/eegfmri_denoising/denoising.py:64-86 | with disjoint regions, sample `t` of cycle `i` is the original sample minus sample `t` of template `(ch, i)` |
| `Denoising.PeriodicArtifactRemoved` | src/eegfmri_denoising/denoising.py:64-86 | if every cycle of a channel is the same waveform and the regions are disjoint, each cleaned cycle sample is the constant removed by the baseline policy, and zero when correction is off |
| `Denoising.LockedArtifactSeparates` | src/eegfmri_denoising/denoising.py:64-86 | if on every cycle region a channel is another signal's channel plus one waveform, and the regions are disjoint, each cleaned cycle sample is that other signal's cleaned sample plus the constant the baseline policy removes from the waveform; with correction off the two are equal |
| `Reconstruction.SubtractAt` | src/eegfmri_denoising/denoising.py:86 | subtracting a template from one region keeps the row's length; what it does to each sample is stated by the lemmas below |
| `Reconstruction.CleanedRow` | src/eegfmri_denoising/denoising.py:66-86 | the row after the first `k` events' subtractions keeps its length; its samples are stated by `CleanedIsTotalSubtraction`, `PassThrough` and `ExactRegion` |
| `Reconstruction.CleanedIsTotalSubtraction` | src/eegfmri_denoising/denoising.py:66-86 | after the event loop every sample is the original minus the sum of all templates whose regions cover it, overlaps included |
| `Reconstruction.PassThrough` | src/eegfmri_denoising/denoising.py:84-86 | a sample no region covers is unchanged by the event loop |
| `Reconstruction.ExactRegion` | src/eegfmri_denoising/denoising.py:84-86 | with disjoint regions the event loop leaves region `i` equal to the original minus template `i` |
| `Reconstruction.IncreasingGapsAreDisjoint` | src/eegfmri_denoising/denoising.py:84-85 | events in increasing order at least one cycle apart have pairwise disjoint regions |
| `Denoising.CopySignal` | src/eegfmri_denoising/denoising.py:14 | the result is a fresh array of the same shape holding the same samples |
| `Denoising.CorrectBaselineInPlace` | src/eegfmri_denoising/denoising.py:79 | the buffer becomes its old contents minus the old mean over `[lo,hi)` |
| `Denoising.BuildTemplate` | src/eegfmri_denoising/denoising.py:67-81 | the fresh template buffer holds exactly the template of cycle `i` |
| `Denoising.SubtractRegion` | src/eegfmri_denoising/denoising.py:84-86 | row `ch` loses the template over `[onset, onset+n)` and every other sample is unchanged |
| `Denoising.CleanChannel` | src/eegfmri_denoising/denoising.py:64-86 | row `ch` becomes the event-by-event cleaned row, with templates from the channel's original samples; other rows are unchanged |
| `Denoising.RemoveGradients` | src/eegfmri_denoising/denoising.py:3-88 | either the error from argument and event checking, or a fresh recording of the same shape equal to `Cleaned` of the input; the input array is not modified |

## Left out

- The `mne` calls are replaced by plain inputs. `events_from_annotations` becomes an event sequence and a label-to-code map. `Epochs` and `get_data` become slicing of the original row. The rate `sfreq` (read from `raw.info` at line 43) is a parameter. The channel count (`raw.ch_names`, line 58) and the sample count are the dimensions of the data array.
- The epoch length `n_times` is taken to equal the TR in samples. The library's rounding of `tmax = tr_sec - 1/sfreq` is not visible.
- The repository never checks that the cycles fit in the recording. The library drops an epoch that runs past the end, and the loop at line 86 then fails on the short slice. The model reports this as the error `CycleOutOfRange` instead of reproducing the library's failure.
- The repository never checks that the TR is positive either. A TR of zero or less makes `tmax` smaller than `tmin`, which the library refuses. The model reports this as the error `NonPositiveCycle`.
- Repeated event samples are treated like any other overlap: both templates are subtracted. The epoching library refuses two events at the same sample by default (the call at denoising.py:49-56 keeps that default), so the source fails there instead.
- Event sample numbers are used directly as indices into the data array, as line 84 does. Any offset of the first recorded sample inside the library is not modelled.
- Samples and means are exact `real`s, not IEEE doubles. Rounding, NaN and the float evaluation of `tr_sec` are not modelled.
- `Denoising.RemoveGradients` requires a positive sampling rate. It also requires that a baseline interval maps to indices `0 <= lo < hi <= n_times`. Outside that range Python slicing behaves in three ways, none of them modelled: a negative index counts from the end of the template, so a negative offset averages samples taken from the end of the cycle; an index past the end is clamped silently; an empty slice gives NaN.
- `Denoising.RemoveGradients` has no default arguments. The source defaults `event_name` to `"Gradient/G  1"`, `window_length` and `baseline` to `None`, and `baseline_correction` to `False` (lines 5-8). The model takes all four as required parameters, with `None` written `Option.None`.
- The window length is a natural number; negative lengths are not modelled. In the source a negative length gives a negative half-width `h` (for -3, `-3 % 2 == 1` keeps the length and `h = -2`). The window bounds `max(0, i - h)` and `min(N, i + h + 1)` then cross. Either the slice is empty and the template is NaN (always for lengths -1 and -2), or the stop index is negative and Python counts it from the end. With -3 and 10 cycles, cycle 0 averages cycles 2 to 8.
- The informational `print` messages (lines 20-22, 26, 45) are observability only.
- `r_peak_detection` (lines 91-93) is a stub that returns nothing.
- The test's synthetic sine signals and its correlation threshold are floating-point numerics. `Denoising.LockedArtifactSeparates` states the exact counterpart over reals. When the signal is another signal plus a waveform locked to the triggers, cleaning gives that other signal's cleaned cycles plus one constant per cycle sample. The constant is zero with correction off. With the test's whole-cycle correction it is the waveform's mean. The model does not say how close the cleaned signal is to the other signal itself.
- The routine uses only the first inter-event gap and never checks that later gaps match. The model does the same. Disjointness is a hypothesis of the exact-region lemmas, and `Denoising.EvenSpacingGivesDisjointRegions` gives a sufficient condition for it.
