# Clinical speech biomarker pipeline, modelled in Dafny

This project models the core of a voice-screening system for Parkinson's disease. A short
voice recording goes through four layers, and the result can be compared with a subject's
clinical history:

- **validation** (`Validation`): existence, extension allow-list, a 50 MiB size ceiling and a
  WAV header check, in that order. The first failing check decides the error.
- **preprocessing** (`Preprocessing`): decoded PCM is scaled to floating point, mixed down to
  mono and peak-normalised. Leading and trailing silence is trimmed, reverting when the trim
  empties the signal. The signal is resampled to 16 kHz and scaled to a -3 dBFS peak. Any
  failure yields one second of silence.
- **signal quality control** (`QualityControl`): duration, clipping and level checks. Every
  check runs, and each failure adds one reason.
- **feature extraction** (`Features`): zero-crossing jitter on the low-passed signal,
  framed-energy shimmer, a clamped-autocorrelation HNR and a zero-crossing f0. These are
  written into a mutable feature dictionary together with a `valid_voice_detected` verdict.
- **the orchestrator** (`Pipeline`): runs the stages in order and records each stage's output
  in a report. The report's status ends as exactly one of failed, rejected or success.
- **the autocorrelation variant of the extractor** (`RobustFeatures`): a per-frame pitch track
  using an autocorrelation lag search and a voicing threshold. Jitter and shimmer are relative
  mean absolute differences of the voiced frames' periods and peaks. HNR comes from a centred
  segment.
- **the history loader** (`HistoryLoader`): resolves a patient identifier to a subject of the
  UCI Parkinson's telemonitoring table and summarises that subject's visits. An identifier is
  either an audio "IDnn" code, which goes through a fixed mapping, or any string carrying a
  number. The table is read from disk at most once (a cache).
- **the group statistics** (`Statistics`): mean and population standard deviation, a
  bucketed Welch-style p-value, and the significance label printed beside it.

`Signal` holds the vector arithmetic the stages share. It also holds the `Numerics` bundle,
which stands for the library calls (resampling, the Butterworth low-pass, box smoothing, the
Hann window and the square root), each with the length or algebraic law the model relies on.
`Text` holds the string handling: digits, ASCII case, `str.strip`, `os.path.splitext` and the
`.2f` rendering of megabytes.

Some consequences the proofs make explicit:

- The trim's "all silence" outcome cannot happen. The envelope peak is always above the
  threshold (`Preprocessing.AllSilenceUnreachable`). The trimmed slice excludes its last
  active sample (`Preprocessing.TrimIsSpan`).
- A file the decoder cannot read is never *failed*. Its one second of silence passes the
  duration and clipping checks and is *rejected* for level alone
  (`Pipeline.DecodeErrorIsRejectedAsSilence`).
- The p-value buckets and the labels both use strict thresholds. So the bucket value 0.001 is
  labelled "(High)", 0.01 "(Mod)" and 0.05 "(Not Significant)". Only the zero-standard-error
  result 0.0 earns "(Significant)" (`Statistics.BucketLabels`).

Further points about what the code does:

- The extractor the orchestrator calls (`features.py`) has no median filter and no
  stable-segment search, and it writes no `f0_std`.
- An undetected voice gets only the `False` verdict: jitter if it was already computed, and no
  zeroed fields.
- The history table is cached at class level and shared by every lookup. It is not passed
  around as a context object.

## Model

| member | source | states |
|---|---|---|
| Validation.Validate | medgemma_pd/audio_pipeline/validation.py:16-68 | a missing file is "not found" whatever else holds; an unsupported-format error happens exactly when the lower-cased extension is off the allow-list, and it carries that extension; too large exactly when allowed and over 50 MiB; a corrupt header exactly for a small-enough .wav whose header fails or has rate 0; a valid .wav reports rate, channels and frames/rate; other formats pass with zero metadata (the error texts are `Validation.ErrorText`) |
| Validation.SizeCeiling | medgemma_pd/audio_pipeline/validation.py:32-34 | size/2^20 > 50 exactly when the byte count exceeds 52428800, so a file of exactly 50 MiB passes |
| Validation.FirstFailingCheckDecides | medgemma_pd/audio_pipeline/validation.py:44-65 | once existence, extension and size pass, the verdict is the header's for .wav and acceptance otherwise |
| Text.Extension | medgemma_pd/audio_pipeline/validation.py:27 | the extension is empty or a suffix of the path that starts with '.' and holds no separator |
| Text.ExtensionIsSuffix | medgemma_pd/audio_pipeline/validation.py:27 | splitext's extension is a suffix of the final path component (`Text.BaseName`, the text after the last '/') |
| Text.ExtensionShape | medgemma_pd/audio_pipeline/validation.py:27 | a non-empty extension starts with '.', holds no other '.', and leaves a stem with a character other than '.' |
| Text.ExtensionPresent | medgemma_pd/audio_pipeline/validation.py:27-29 | the extension is non-empty exactly when some non-'.' character precedes a '.' in the final component; otherwise it is '' and the file is rejected as "Unsupported format: " |
| Text.ExtensionExamples | medgemma_pd/audio_pipeline/validation.py:27 | "d./t.WAV" gives ".WAV", the hidden file ".wav" gives "", and "a.tar.gz" gives ".gz" |
| Text.Lower | medgemma_pd/audio_pipeline/validation.py:27 | lower-casing keeps the length and maps character by character |
| Text.LowerCases | medgemma_pd/audio_pipeline/validation.py:27 | no upper-case ASCII letter remains; each becomes the same letter in lower case; every other character is kept |
| Text.LowerIdempotent | medgemma_pd/audio_pipeline/validation.py:27 | lowering twice is lowering once |
| Text.LowerExtensionExample | medgemma_pd/audio_pipeline/validation.py:27-29 | ".WAV" is compared as ".wav" |
| Text.UpperCases | medgemma_pd/history_loader/loader.py:70 | `Text.Upper` leaves no lower-case ASCII letter; each becomes the same letter in upper case; every other character is kept |
| Text.Strip | medgemma_pd/history_loader/loader.py:64 | the stripped identifier is a contiguous slice with no whitespace at either end |
| Text.StripRemovesBlanks | medgemma_pd/history_loader/loader.py:64 | everything before and after that slice is whitespace, so only surrounding whitespace is removed, and all of it |
| Text.NatToString | medgemma_pd/history_loader/loader.py:92 | the decimal rendering of n is a non-empty digit string whose value is n |
| Text.LeadingZeroIgnored | medgemma_pd/history_loader/loader.py:83 | int() of digits (`Text.DigitsValue`) ignores a leading zero |
| Text.TwoDigitsValue | medgemma_pd/history_loader/loader.py:77 | int() of two digits is ten times the first plus the second |
| Preprocessing.IntTypeScale | medgemma_pd/audio_pipeline/preprocessing.py:43-44 | max(abs(min), abs(max)) of a signed type of width b is 2^(b-1) |
| Preprocessing.SampleToFloat | medgemma_pd/audio_pipeline/preprocessing.py:45-47 | float samples are kept as they are |
| Preprocessing.SampleToFloatRange | medgemma_pd/audio_pipeline/preprocessing.py:39-50 | in-range integer samples land in [-1, 1]; unsigned bytes land in [-1, 127/128] |
| Preprocessing.ToFloatInUnitRange | medgemma_pd/audio_pipeline/preprocessing.py:39-44 | a whole integer file scales into [-1, 1], sample by sample |
| Preprocessing.Mixdown | medgemma_pd/audio_pipeline/preprocessing.py:53-57 | each mono sample is the mean of its frame's channels, both for several channels and for one |
| Preprocessing.MixdownBounds | medgemma_pd/audio_pipeline/preprocessing.py:53-57 | mixing down keeps samples within any bounds of the channels |
| Preprocessing.MonoSignal | medgemma_pd/audio_pipeline/preprocessing.py:36-57 | the mono signal has one sample per decoded frame |
| Preprocessing.PeakNormalise | medgemma_pd/audio_pipeline/preprocessing.py:63-67 | a signal with a positive peak is scaled to peak exactly 1; an all-zero signal is left unchanged |
| Preprocessing.FlatNonzero | medgemma_pd/audio_pipeline/preprocessing.py:148 | the indices are exactly the active ones, strictly increasing |
| Preprocessing.FlatNonzeroEnds | medgemma_pd/audio_pipeline/preprocessing.py:148-154 | nothing before the first or after the last index is active; no index means no active sample |
| Preprocessing.TrimDecision | medgemma_pd/audio_pipeline/preprocessing.py:110-154 | a span has start <= end within the signal |
| Preprocessing.TrimSilence | medgemma_pd/audio_pipeline/preprocessing.py:110-158 | the trim never lengthens the signal; its log never holds status, resample or gain entries, nor the revert marker |
| Preprocessing.TrimKeepsShortOrSilent | medgemma_pd/audio_pipeline/preprocessing.py:114-139 | a signal shorter than 2048 samples or with a zero envelope peak comes back unchanged |
| Preprocessing.AllSilenceUnreachable | medgemma_pd/audio_pipeline/preprocessing.py:150-151 | the "all_silence" outcome never occurs, because the envelope peak itself is active |
| Preprocessing.TrimIsSpan | medgemma_pd/audio_pipeline/preprocessing.py:137-158 | with a positive envelope peak, the result is y[first:last] of the active indices; nothing outside is active; the result is strictly shorter, and empty exactly when one index is active |
| Preprocessing.KeptSignal | medgemma_pd/audio_pipeline/preprocessing.py:71-79 | the kept signal is the trimmed one or, when that is empty, the untrimmed one; a non-empty input never yields an empty output |
| Preprocessing.ResampleLength | medgemma_pd/audio_pipeline/preprocessing.py:83 | the new length is the floor of len·16000/src_sr |
| Preprocessing.BeforeGain | medgemma_pd/audio_pipeline/preprocessing.py:32-88 | a decode error is passed on unchanged; a signal that reaches the gain stage is non-empty |
| Preprocessing.ResampledOnlyOffTarget | medgemma_pd/audio_pipeline/preprocessing.py:81-88 | a 16 kHz file is not resampled; rate 0 raises; any other rate gives floor(len·16000/rate) samples |
| Preprocessing.TrimStage | medgemma_pd/audio_pipeline/preprocessing.py:71-79 | the trimmed signal is the kept signal; the trim log is merged into the audit, then the status is overwritten by "reverted_to_original" when the trim emptied the signal |
| Preprocessing.FinalGain | medgemma_pd/audio_pipeline/preprocessing.py:90-99 | a non-silent signal is scaled by target/peak to a peak of exactly 10^(-3/20), and that gain is reported; a silent one is kept with gain 1.0 |
| Preprocessing.Prepare | medgemma_pd/audio_pipeline/preprocessing.py:36-88 | computes the pre-gain signal; on success the audit is the trim entries (`Preprocessing.TrimEntries` of the trim outcome) with resample_rate 16000 |
| Preprocessing.Preprocessed | medgemma_pd/audio_pipeline/preprocessing.py:19-107 | the returned samples are never empty |
| Preprocessing.Process | medgemma_pd/audio_pipeline/preprocessing.py:19-107 | always returns rate 16000; any exception gives 16000 zeros; otherwise the peak is the -3 dBFS target, or the signal is silent and unchanged; the audit is `Preprocessing.AuditOf`, the fallback audit after an exception |
| Preprocessing.AuditEntries | medgemma_pd/audio_pipeline/preprocessing.py:24-107 | a failed attempt reports only status "error" and its reason; a successful one holds exactly the trim log's keys, resample_rate and normalization_gain, plus trim_status when reverted; the trim log's entries are kept, the revert marker replacing the status; the rate is 16000 and the gain is the one applied |
| Preprocessing.TrimAuditRecorded | medgemma_pd/audio_pipeline/preprocessing.py:71-99 | the same audit shape for any trim outcome and gain |
| Preprocessing.MergedIntoEmpty | medgemma_pd/audio_pipeline/preprocessing.py:24-72 | merging the trim log into the still empty audit gives the trim entries |
| QualityControl.ClippedCount | medgemma_pd/audio_pipeline/quality_control.py:33 | the clipped count is at most the length and is zero when no sample reaches 0.99 |
| QualityControl.ClippingRatio | medgemma_pd/audio_pipeline/quality_control.py:33-34 | the ratio is NaN exactly for an empty signal and otherwise lies in [0, 1] |
| QualityControl.RmsEnergy | medgemma_pd/audio_pipeline/quality_control.py:42 | the RMS is NaN exactly for an empty signal and otherwise non-negative |
| QualityControl.ReasonsItemised | medgemma_pd/audio_pipeline/quality_control.py:20-47 | each check's reason appears in `QualityControl.Reasons` exactly when that check fails, no other reason appears, and reasons keep check order without repeats (so a signal failing two checks gets both reasons) |
| QualityControl.AssessQuality | medgemma_pd/audio_pipeline/quality_control.py:15-56 | the report's metrics are `QualityControl.Measure`: the signal's duration, clipping ratio and RMS; its reasons are those of the failing checks; it passes exactly when there is no reason |
| QualityControl.Check | medgemma_pd/audio_pipeline/quality_control.py:24-47 | a failing check clears the verdict and appends its reason; a passing one changes neither |
| QualityControl.DurationThreshold | medgemma_pd/audio_pipeline/quality_control.py:25-27 | the duration check fails exactly when there are fewer than sr/2 samples |
| QualityControl.ClippedCountOfZeros | medgemma_pd/audio_pipeline/quality_control.py:33 | silence has no clipped sample |
| QualityControl.ClippedCountCountsClipped | medgemma_pd/audio_pipeline/quality_control.py:32-33 | the count is exactly the number of samples whose magnitude is at least 0.99, the level included (`QualityControl.ClippedIndices`) |
| QualityControl.ClippedCountExtremes | medgemma_pd/audio_pipeline/quality_control.py:33 | a fully clipped signal counts every sample, and one clipped sample makes the count positive |
| QualityControl.ClippedCountExample | medgemma_pd/audio_pipeline/quality_control.py:33 | [0.99, -0.99, 0.98] has two clipped samples |
| QualityControl.EnergyOfZeros | medgemma_pd/audio_pipeline/quality_control.py:42 | silence has zero energy |
| QualityControl.SilenceIsTooQuiet | medgemma_pd/audio_pipeline/quality_control.py:24-47 | one second of silence at 16 kHz is long enough, has clipping ratio 0 and RMS 0 |
| Signal.Autocorrelation | medgemma_pd/audio_pipeline/robust_features_temp.py:4-13 | the autocorrelation has one value per sample, and value k is the lag-k product sum |
| Signal.AutocorrelationEnergyNonNegative | medgemma_pd/audio_pipeline/robust_features_temp.py:41 | the lag-0 value is the signal energy, and it is non-negative |
| Signal.MaxAbs | medgemma_pd/audio_pipeline/preprocessing.py:63 | the peak is non-negative, bounds every magnitude and is attained |
| Signal.MeanAbsDiffOfConstant | medgemma_pd/audio_pipeline/robust_features_temp.py:92 | a constant sequence has zero mean absolute difference |
| RobustFeatures.ArgMaxFirst | medgemma_pd/audio_pipeline/robust_features_temp.py:34 | argmax returns the first index of the maximum |
| RobustFeatures.ExtractPitch | medgemma_pd/audio_pipeline/robust_features_temp.py:15-51 | an unvoiced frame reports f0 0.0; a voiced f0 lies in (75, sr/int(sr/600)] |
| RobustFeatures.PitchRange | medgemma_pd/audio_pipeline/robust_features_temp.py:24-25 | any lag in the window converts to a frequency above 75 Hz and at most sr/min_lag |
| RobustFeatures.PitchDecision | medgemma_pd/audio_pipeline/robust_features_temp.py:21-51 | an empty lag window is unvoiced; otherwise voiced exactly when acf[0] is non-zero and the first maximal peak is at least 0.3 of it, with f0 = sr/(min_lag + peak index) |
| RobustFeatures.FrameInBounds | medgemma_pd/audio_pipeline/robust_features_temp.py:63-72 | every frame the loop visits lies inside the signal |
| RobustFeatures.Frame | medgemma_pd/audio_pipeline/robust_features_temp.py:71-72 | frame i is the frame_len samples from i·hop_len |
| RobustFeatures.FramePitches | medgemma_pd/audio_pipeline/robust_features_temp.py:70-77 | one pitch per visited frame, from the Hann-windowed frame; voiced ones are above 75 Hz |
| RobustFeatures.FramePeaks | medgemma_pd/audio_pipeline/robust_features_temp.py:80 | one non-negative peak amplitude max|frame| per visited frame |
| RobustFeatures.Collect | medgemma_pd/audio_pipeline/robust_features_temp.py:67-80 | the f0 and peak lists grow together and never outnumber the frames |
| RobustFeatures.VoicedIndices | medgemma_pd/audio_pipeline/robust_features_temp.py:78 | only voiced frames, in strictly increasing order |
| RobustFeatures.VoicedIndicesComplete | medgemma_pd/audio_pipeline/robust_features_temp.py:78 | every voiced frame is among them |
| RobustFeatures.CollectFollowsFrameOrder | medgemma_pd/audio_pipeline/robust_features_temp.py:70-80 | entry j of both lists comes from the j-th voiced frame, so the lists follow frame order and hold every voiced frame |
| RobustFeatures.CollectBounds | medgemma_pd/audio_pipeline/robust_features_temp.py:77-80 | collected f0s are above 75 Hz and peaks are non-negative |
| RobustFeatures.RelativeMeanAbsDiff | medgemma_pd/audio_pipeline/robust_features_temp.py:92-99 | jitter and shimmer ratios are non-negative |
| RobustFeatures.RelativeMeanAbsDiffOfConstant | medgemma_pd/audio_pipeline/robust_features_temp.py:92-99 | a constant sequence has ratio 0 |
| RobustFeatures.Periods | medgemma_pd/audio_pipeline/robust_features_temp.py:91 | each period 1/(f0 + 1e-6) is positive |
| RobustFeatures.CentredSegment | medgemma_pd/audio_pipeline/robust_features_temp.py:103-105 | the HNR segment has 2·(min(len, 4096)//2) samples |
| RobustFeatures.HnrOfPeak | medgemma_pd/audio_pipeline/robust_features_temp.py:118-121 | 100 dB exactly when the peak is not below the energy; otherwise 10·log10 of peak over a positive noise term |
| RobustFeatures.SegmentHnr | medgemma_pd/audio_pipeline/robust_features_temp.py:107-123 | 0 dB exactly when the segment is too short for the lag window |
| RobustFeatures.MeasuresBounds | medgemma_pd/audio_pipeline/robust_features_temp.py:53-130 | about `RobustFeatures.JitterShimmerHnr`: fewer than five frames give the all-zero result; a measured result had at least five frames and three voiced ones, non-negative jitter and shimmer, and a mean f0 above 75 Hz |
| RobustFeatures.SteadyPitchHasNoJitter | medgemma_pd/audio_pipeline/robust_features_temp.py:89-94 | a steady pitch has zero jitter |
| RobustFeatures.MeasureFrame | medgemma_pd/audio_pipeline/robust_features_temp.py:71-80 | one loop step computes that frame's pitch and peak |
| RobustFeatures.CollectStep | medgemma_pd/audio_pipeline/robust_features_temp.py:78-80 | one more frame appends its f0 and peak exactly when it is voiced |
| RobustFeatures.TrackFrames | medgemma_pd/audio_pipeline/robust_features_temp.py:67-80 | the frame loop builds exactly the voiced track |
| RobustFeatures.ExtractJitterShimmerHnr | medgemma_pd/audio_pipeline/robust_features_temp.py:53-130 | the extraction's result is the jitter/shimmer/HNR/f0 function of the signal |
| Features.FeatureDict.constructor | medgemma_pd/audio_pipeline/features.py:23 | a new dictionary is empty |
| Features.FeatureDict.Put | medgemma_pd/audio_pipeline/features.py:63 | writing a key sets that key and changes nothing else |
| Features.ZeroCrossings | medgemma_pd/audio_pipeline/features.py:61 | every listed index is a sign-bit change, in strictly increasing order |
| Features.ZeroCrossingsComplete | medgemma_pd/audio_pipeline/features.py:61 | every sign-bit change is listed |
| Features.Intervals | medgemma_pd/audio_pipeline/features.py:66 | the intervals are the gaps between consecutive crossings, each at least 1 |
| Features.MeanPeriodAtLeastOne | medgemma_pd/audio_pipeline/features.py:66-68 | the mean interval is at least 1, so the replacement of a zero mean never applies |
| Features.ZcrJitter | medgemma_pd/audio_pipeline/features.py:70-73 | jitter is non-negative |
| Features.SteadyCrossingsHaveNoJitter | medgemma_pd/audio_pipeline/features.py:70-73 | evenly spaced crossings give zero jitter |
| Features.ZcrF0 | medgemma_pd/audio_pipeline/features.py:128 | f0 lies in [0, sr/2], and is positive for a positive rate |
| Features.FrameRms | medgemma_pd/audio_pipeline/features.py:79-80 | a frame's RMS energy is non-negative |
| Features.FrameEnergies | medgemma_pd/audio_pipeline/features.py:76-80 | one non-negative energy per whole frame, and the tail is dropped |
| Features.Exceeding | medgemma_pd/audio_pipeline/features.py:81 | only values above the threshold are kept, drawn from the energies |
| Features.ExceedingComplete | medgemma_pd/audio_pipeline/features.py:81 | no value above the threshold is dropped |
| Features.ActiveEnergies | medgemma_pd/audio_pipeline/features.py:78-81 | the active energies are non-negative |
| Features.ShimmerOf | medgemma_pd/audio_pipeline/features.py:83-89 | shimmer is non-negative |
| Features.ZcrShimmer | medgemma_pd/audio_pipeline/features.py:76-91 | shimmer is non-negative, and it is 0.0 for a signal of at most one frame |
| Features.SteadyEnergyHasNoShimmer | medgemma_pd/audio_pipeline/features.py:83-89 | equal active energies give zero shimmer |
| Features.HnrSegment | medgemma_pd/audio_pipeline/features.py:96-97 | a signal longer than 4000 samples gives a non-empty segment of at most 2048 samples; a shorter one is used whole |
| Features.ClampPeak | medgemma_pd/audio_pipeline/features.py:115-116 | the clamped peak lies in [0.01, 0.99], and a value strictly inside is kept |
| Features.ClampedOddsBounds | medgemma_pd/audio_pipeline/features.py:115-118 | the odds p/(1-p) of a clamped peak lie in [1/99, 99] |
| Features.ZcrHnr | medgemma_pd/audio_pipeline/features.py:93-125 | HNR is 0.0 or 10·log10 of odds in [1/99, 99]; it is 0.0 whenever the segment is not longer than twice the lag window's end |
| Features.HnrOutcomes | medgemma_pd/audio_pipeline/features.py:99-123 | on a long enough segment: no lag-0 energy gives 0.0; an empty lag window (exactly below 50 Hz) gives 0.0; otherwise the odds of the clamped maximum of the normalised autocorrelation over the window |
| Features.OddsMonotone | medgemma_pd/audio_pipeline/features.py:113-118 | a higher clamped peak never gives lower odds, so the HNR grows with the peak |
| Features.FrameFeaturesKeys | medgemma_pd/audio_pipeline/features.py:75-130 | after jitter, the verdict is True exactly when int(sr·0.02) > 0; then the keys written are the four frame-based ones, otherwise the verdict alone |
| Features.IntervalFeaturesKeys | medgemma_pd/audio_pipeline/features.py:66-130 | jitter is always written; after it, the keys of the frame stage |
| Features.FeatureKeys | medgemma_pd/audio_pipeline/features.py:45-134 | for the extractor's output `Features.NumpyFeatures`: the verdict is always written; it is True exactly when the signal is longer than the filter pad, crosses zero at least ten times and the rate gives a non-empty frame; a detected voice has exactly the five keys |
| Features.FeatureBounds | medgemma_pd/audio_pipeline/features.py:66-130 | a detected voice has non-negative jitter and shimmer, an HNR of 0.0 or within ±10·log10(99), and f0 in (0, sr/2] |
| Features.IntervalFeatureBounds | medgemma_pd/audio_pipeline/features.py:66-130 | the same bounds once enough zero crossings were found |
| Features.ExtractNumpyFeatures | medgemma_pd/audio_pipeline/features.py:45-134 | the caller's dictionary gains exactly the extractor's entries, and earlier entries not overwritten are kept |
| Features.WriteIntervalFeatures | medgemma_pd/audio_pipeline/features.py:66-73 | jitter followed by the frame-stage entries is added to the dictionary |
| Features.WriteFrameFeatures | medgemma_pd/audio_pipeline/features.py:75-130 | shimmer, HNR, f0 and a True verdict, or a False verdict when the frame size is zero, are added to the dictionary |
| Features.ExtractFeatures | medgemma_pd/audio_pipeline/features.py:17-31 | a fresh dictionary holding exactly the extractor's entries |
| Pipeline.Report.constructor | medgemma_pd/audio_pipeline/pipeline.py:21-27 | a new report carries the version and timestamp, is pending, has no stages and has no error |
| Pipeline.Samples | medgemma_pd/audio_pipeline/pipeline.py:40 | the later stages always see a non-empty signal |
| Pipeline.RunTerminates | medgemma_pd/audio_pipeline/pipeline.py:15-74 | a run (`Pipeline.Run`) never stays pending; the stages reached are a non-empty prefix of the four in order; only a success lacks an error, and a success reached all four stages |
| Pipeline.ScreenEnds | medgemma_pd/audio_pipeline/pipeline.py:47-74 | once validation has passed, the remaining stages (`Pipeline.Screen`) end the run in the same sense |
| Pipeline.FailedExactlyOnInvalidInput | medgemma_pd/audio_pipeline/pipeline.py:30-45 | a run fails exactly when validation rejects the file, with "Validation Error: " and the validator's message, and only the validation stage recorded |
| Pipeline.QualityFailureRejects | medgemma_pd/audio_pipeline/pipeline.py:48-54 | a QC failure rejects with the QC reasons and never reaches feature extraction; only a QC rejection carries rejections |
| Pipeline.QualityDecides | medgemma_pd/audio_pipeline/pipeline.py:48-54 | the same, stated for any preprocessed signal |
| Pipeline.VoiceDecidesAfterQuality | medgemma_pd/audio_pipeline/pipeline.py:57-74 | after QC passes, an undetected voice is rejected as unvoiced and a detected voice succeeds |
| Pipeline.VoiceDecides | medgemma_pd/audio_pipeline/pipeline.py:57-74 | the same, stated for any preprocessed signal that passes QC |
| Pipeline.DecodeErrorIsRejectedAsSilence | medgemma_pd/audio_pipeline/pipeline.py:39-54 | a file the decoder cannot read is rejected with the single reason "too quiet" |
| Pipeline.ProcessFile | medgemma_pd/audio_pipeline/pipeline.py:15-74 | the report's status, stages, error and rejections are those of the run; version and timestamp are set; processing time is end - start exactly on success; the recorded stage results are the validator's, the preprocessing audit `Preprocessing.AuditOf`, QC's and the extractor's outputs |
| Pipeline.RunPreprocessing | medgemma_pd/audio_pipeline/pipeline.py:39-45 | the audit the preprocessor returned (`Preprocessing.AuditOf`) is recorded as the second stage and its samples passed on; nothing else in the report changes |
| Pipeline.RunScreening | medgemma_pd/audio_pipeline/pipeline.py:47-74 | QC and feature extraction decide the status, error and rejections as the run specifies, recording their outputs |
| Pipeline.RunFeatureExtraction | medgemma_pd/audio_pipeline/pipeline.py:56-74 | the features are recorded; the run succeeds and is timed exactly when a voice is detected, and is otherwise rejected as unvoiced |
| Statistics.Variance | calculate_stats.py:15 | the population variance is non-negative |
| Statistics.MeanStd | calculate_stats.py:12-16 | an empty list gives (0.0, 0.0); std is non-negative, and its square is the population variance |
| Statistics.MeanWithinBounds | calculate_stats.py:14 | the mean lies within any bounds of the values |
| Statistics.ZeroSumOfNonNegative | calculate_stats.py:15 | non-negative terms summing to zero are all zero |
| Statistics.MeanOfConstant | calculate_stats.py:14 | a constant list has that constant as its mean |
| Statistics.VarianceZeroIffConstant | calculate_stats.py:15 | the variance is zero exactly when all values are equal |
| Statistics.ConstantHasNoVariance | calculate_stats.py:15 | equal values have zero variance |
| Statistics.NoVarianceIsConstant | calculate_stats.py:15 | zero variance means every value equals the mean |
| Statistics.StdZeroIffConstant | calculate_stats.py:12-16 | the standard deviation is zero exactly when all values are equal |
| Statistics.PValue | calculate_stats.py:33-36 | the p-value is one of 0.001, 0.01, 0.05 and 0.5 |
| Statistics.PValueAntitone | calculate_stats.py:33-36 | a larger t statistic never gives a larger p-value |
| Statistics.ManualTTest | calculate_stats.py:18-36 | the result is one of 0.99, 0.0, 1.0 or a bucket, and it is 0.99 exactly when a group has fewer than two values |
| Statistics.TTestSymmetric | calculate_stats.py:18-36 | swapping the groups does not change the p-value |
| Statistics.ConstantGroups | calculate_stats.py:25-27 | two constant groups give 0.0 when their values differ and 1.0 when they agree |
| Statistics.SpreadGivesBucket | calculate_stats.py:25-36 | a group with spread never takes the zero-denominator branch, so the result is a t bucket |
| Statistics.LabelAntitone | calculate_stats.py:89-93 | a smaller p-value never gets a weaker `Statistics.Label` |
| Statistics.BucketLabels | calculate_stats.py:89-93 | "(Significant)" exactly for p = 0.0; the buckets 0.001, 0.01 and 0.05 read "(High)", "(Mod)" and "(Not Significant)" |
| HistoryLoader.JoinPath | medgemma_pd/history_loader/loader.py:36 | the joined path starts with the base and ends with the dataset path |
| HistoryLoader.ReadDataset | medgemma_pd/history_loader/loader.py:36-45 | a read succeeds exactly when the path exists and parses, and returns its rows; otherwise it fails with "not found" or "failed to parse" |
| HistoryLoader.RunEnd | medgemma_pd/history_loader/loader.py:68 | the digit run is maximal |
| HistoryLoader.FindId | medgemma_pd/history_loader/loader.py:68 | the first case-insensitive "ID" plus digit match, or none |
| HistoryLoader.FindDigit | medgemma_pd/history_loader/loader.py:80 | the first digit, or none |
| HistoryLoader.FirstRun | medgemma_pd/history_loader/loader.py:76-80 | a non-empty run of digits; none exactly when there is no digit |
| HistoryLoader.FirstRunStartsAtFirstDigit | medgemma_pd/history_loader/loader.py:76-80 | the run starts at the first digit and is maximal: it ends at the end of the string or before a non-digit |
| HistoryLoader.NoCodeUsesFirstRun | medgemma_pd/history_loader/loader.py:78-83 | without an "ID" code the number is the int of the first digit run |
| HistoryLoader.SubjectNumber | medgemma_pd/history_loader/loader.py:64-83 | an identifier has no subject number exactly when its stripped form has no digit |
| HistoryLoader.ParseSubject | medgemma_pd/history_loader/loader.py:68-83 | a stripped identifier has no subject number exactly when it has no digit |
| HistoryLoader.RunToEnd | medgemma_pd/history_loader/loader.py:76 | a run of digits through the end ends there |
| HistoryLoader.UpperCode | medgemma_pd/history_loader/loader.py:70 | the upper-cased code is "ID" followed by the matched digits |
| HistoryLoader.UnmappedCodeUsesItsDigits | medgemma_pd/history_loader/loader.py:74-77 | an unmapped code names the subject its digits spell; the fallback to 1 is never taken |
| HistoryLoader.NoBlanksToStrip | medgemma_pd/history_loader/loader.py:64 | an identifier without surrounding whitespace is unchanged by strip |
| HistoryLoader.SurroundingBlanksStripped | medgemma_pd/history_loader/loader.py:64 | one blank on either side is removed |
| HistoryLoader.MappedCodeExample | medgemma_pd/history_loader/loader.py:17-28 | "ID02" maps to subject 35 |
| HistoryLoader.LowerCaseCodeExample | medgemma_pd/history_loader/loader.py:67-72 | "id00" maps to subject 18 |
| HistoryLoader.PaddedCodeExample | medgemma_pd/history_loader/loader.py:64 | " id00 " maps to subject 18 too |
| HistoryLoader.MappedFourCharCode | medgemma_pd/history_loader/loader.py:67-72 | a four-character code in either case whose upper-cased form is mapped names the mapped subject |
| HistoryLoader.BlanksIgnored | medgemma_pd/history_loader/loader.py:64 | surrounding blanks do not change the subject |
| HistoryLoader.UnmappedCodeExample | medgemma_pd/history_loader/loader.py:74-77 | "ID34" names subject 34 |
| HistoryLoader.UnmappedTwoDigitCode | medgemma_pd/history_loader/loader.py:74-77 | an unmapped "ID" code with two digits names the two-digit number they spell |
| HistoryLoader.PatientNumberExample | medgemma_pd/history_loader/loader.py:78-83 | "P07" names subject 7 |
| HistoryLoader.NoDigitsExample | medgemma_pd/history_loader/loader.py:80-82 | "abc" has no subject number |
| HistoryLoader.SubjectRows | medgemma_pd/history_loader/loader.py:86-87 | the selected rows belong to the subject and come from the table; there are none exactly when no row has that subject |
| HistoryLoader.SubjectRowsComplete | medgemma_pd/history_loader/loader.py:86-87 | every row of the subject is selected |
| HistoryLoader.Earliest | medgemma_pd/history_loader/loader.py:98-107 | the baseline visit is one of the subject's visits, with the smallest test time |
| HistoryLoader.Latest | medgemma_pd/history_loader/loader.py:98-111 | the latest visit is one of the subject's visits, with the largest test time |
| HistoryLoader.TrendOrdered | medgemma_pd/history_loader/loader.py:117-123 | for `HistoryLoader.ClassifyTrend`: a larger change never gives a better trend, and mirroring the change mirrors the trend |
| HistoryLoader.Unique | medgemma_pd/history_loader/loader.py:93 | the same subjects as the column, each once |
| HistoryLoader.InvalidExactlyWithoutDigits | medgemma_pd/history_loader/loader.py:62-83 | the lookup (`HistoryLoader.Lookup`) answers "Invalid ID format" exactly when the stripped identifier has no digit |
| HistoryLoader.Summary | medgemma_pd/history_loader/loader.py:85-127 | once a subject number is known, the answer is a found or a not-found record, never an invalid format |
| HistoryLoader.SelectedSpan | medgemma_pd/history_loader/loader.py:86-111 | the earliest and latest selected rows belong to the subject and bound the test times of all of its rows |
| HistoryLoader.NotFoundListsSubjects | medgemma_pd/history_loader/loader.py:86-94 | when subject n has no visits, the summary reports n with the distinct subjects of the table, which do not include n |
| HistoryLoader.FoundSummarisesSubject | medgemma_pd/history_loader/loader.py:96-127 | subject n's summary reports n; its record count is n's number of rows; the baseline and latest readings come from its earliest and latest visits; delta is their total-UPDRS difference; the trend is deteriorating exactly above +3 and improving exactly below -3 |
| HistoryLoader.Answer | medgemma_pd/history_loader/loader.py:59-60 | a load error, and only a load error, becomes the answer's error message |
| HistoryLoader.HistoryLoader.constructor | medgemma_pd/history_loader/loader.py:12 | the cache starts empty and nothing has been read |
| HistoryLoader.HistoryLoader.LoadData | medgemma_pd/history_loader/loader.py:30-45 | a filled cache is served without touching the disk; otherwise the dataset is read once and cached when the read succeeds |
| HistoryLoader.HistoryLoader.GetPatientHistory | medgemma_pd/history_loader/loader.py:48-130 | the answer is the lookup on the cached or freshly read table, or the load error; the disk is read only when nothing was cached, and a successful read is cached, so later lookups read nothing |

## Left out

- Floating point: samples and metrics are mathematical reals. Rounding, overflow and negative zero are not modelled; `np.signbit(-0.0)` is true, but `Features.SignBit` treats every zero as non-negative.
- Library numerics: `scipy.signal.resample`, `filtfilt` with the order-4 Butterworth filter, `np.convolve(..., mode='same')`, `np.hanning` and the square root are parameters (`Numerics`). The model uses only their output lengths and the square-root law. The FFT route of `autocorrelation` is replaced by its defining lag sum.
- Logarithms: dB values are kept symbolic as `TenLog10(ratio)`. The trim mask is restated exactly without the logarithm.
- File and audio I/O: `os.path.exists`, `os.path.getsize`, `wave.open`, `wavfile.read` and `pd.read_csv` are inputs. Their outcomes are datatypes (`FileFacts`, `Result<WavData>`, `FileSystem`).
- Clocks: `time.time()` readings are parameters of `Pipeline.ProcessFile`.
- Console output: the warnings and prints of the preprocessor, the feature extractor and the mapping layer are not modelled.
- `Preprocessing.Process`: the texts of the exceptions it catches are reduced to a few representative messages (empty maximum, division by zero, the decoder's own message). Resampling errors are not distinguished.
- `Features.NumpyFeatures`: the filter's failure on short input is modelled as a signal of at most 15 samples, which is filtfilt's default pad length for this filter. Other exceptions inside the extractor are not modelled.
- `Features.ZcrShimmer`: the frame size `int(sr * 0.02)` is modelled as `sr // 50`. The source computes it in floating point, where the two can differ by rounding.
- `RobustFeatures.FrameLen`: `int(sr * 0.03)` and `int(sr * 0.01)` are modelled as `sr * 3 // 100` and `sr // 100`, with the same caveat.
- `RobustFeatures.ExtractJitterShimmerHnr`: requires a rate of at least 600 Hz. Below that, `int(sr / 600)` is 0, and the source divides by a zero lag (numpy yields inf).
- `RobustFeatures.ExtractPitch`: requires a rate of at least 600 Hz. Below that, `int(sr / 600)` is 0, so the lag search can pick lag 0 and `sr / true_lag` is numpy's inf. The model has no infinite f0, so this outcome is not modelled.
- `RobustFeatures.PitchDecision`: states the voicing decision only for rates of at least 600 Hz, for the same reason as `RobustFeatures.ExtractPitch`.
- `QualityControl.AssessQuality`: requires a positive rate. The source raises on a zero rate, and its only caller passes 16000.
- `QualityControl.Reason`: the reason texts with `.2f` and `.1f` numbers are not rendered. A reason is a datatype carrying the measured value.
- `Pipeline.ProcessFile`: the "Preprocessing Error" and "Feature Extraction Error" branches are not modelled. Both callees catch every exception themselves, so those branches are unreachable.
- `Text.Lower`, `Text.Upper`, `HistoryLoader.FirstRun`: only ASCII letters change case, and only ASCII digits count. Python's `str.lower`, `re.IGNORECASE` and `\d` are Unicode-aware.
- `HistoryLoader.Summary`: `delta_updrs` is kept exact. `round(delta, 2)` is not modelled.
- `HistoryLoader.Earliest`: among visits with equal test times, the model picks the first in table order and `HistoryLoader.Latest` picks the last. pandas' default sort does not guarantee that tie order.
- `HistoryLoader.Summary`: only the table's subject#, test_time, motor_UPDRS and total_UPDRS columns are modelled. Exceptions other than load errors (a missing column, say) are not.
- `HistoryLoader.HistoryLoader`: the class-level cache is a field of one loader object.
- calculate_stats.py `main`: reading results.csv, the scipy `ttest_ind` branch, the `p_str` formatting and the printed table are not modelled. The significance labels are (`Statistics.Label`).
- `Statistics.ManualTTest`: the "any value other than 0" test on the denominator is exact here. In floating point, tiny variances can underflow to zero.
