/** Layer 4 of the pipeline, the variant the orchestrator calls: zero-crossing jitter on the
    low-passed signal, framed-energy shimmer and a clamped-correlation HNR, written into a
    caller-supplied feature dictionary. The low-pass filter is a seam of `Numerics`. */
module Features {
  import opened Signal

  /** filtfilt's default pad length, 3·max(len(a), len(b)) for the order-4 filter: a signal
      no longer than this makes the filter raise. */
  const PadLen: nat := 15
  const MinCrossings: nat := 10
  const JitterScale: real := 0.5
  const ShimmerScale: real := 0.4
  /** Frames are int(sr·0.02) samples long, that is sr // 50. */
  const FramesPerSecond: nat := 50
  const ActiveFraction: real := 0.01
  const MinActiveFrames: nat := 5
  const ShimmerEpsilon: real := 0.000000001
  const LongSignal: nat := 4000
  const SegmentLength: nat := 2048
  const PeakFloor: real := 0.01
  const PeakCeiling: real := 0.99

  /** The keys of the feature dictionary. */
  datatype FeatureKey = JitterLocal | ShimmerLocal | Hnr | F0Mean | ValidVoiceDetected

  function KeyName(k: FeatureKey): string {
    match k
    case JitterLocal => "jitter_local"
    case ShimmerLocal => "shimmer_local"
    case Hnr => "hnr"
    case F0Mean => "f0_mean"
    case ValidVoiceDetected => "valid_voice_detected"
  }

  datatype FeatureValue = Flag(flag: bool) | Number(x: real) | Level(db: Decibels)

  /** The dictionary the extractor fills in place. */
  class FeatureDict {
    var entries: map<FeatureKey, FeatureValue>

    constructor()
      ensures entries == map[]
    {
      entries := map[];
    }

    /** features[key] = value. */
    method Put(key: FeatureKey, value: FeatureValue)
      modifies this
      ensures entries == old(entries)[key := value]
    {
      entries := entries[key := value];
    }
  }

  /** np.signbit on a real sample (the model has no negative zero). */
  predicate SignBit(x: real) {
    x < 0.0
  }

  predicate IsCrossing(yc: seq<real>, i: int) {
    0 <= i < |yc| - 1 && SignBit(yc[i]) != SignBit(yc[i + 1])
  }

  predicate Increasing(s: seq<nat>) {
    forall j, k :: 0 <= j < k < |s| ==> s[j] < s[k]
  }

  /** np.where(np.diff(np.signbit(y)))[0]: the indices where the sign bit changes between
      a sample and the next, in increasing order. */
  function ZeroCrossings(yc: seq<real>): (zc: seq<nat>)
    ensures forall j :: 0 <= j < |zc| ==> IsCrossing(yc, zc[j])
    ensures Increasing(zc)
  {
    if |yc| < 2 then []
    else
      var n := |yc| - 2;
      var front := ZeroCrossings(yc[..n + 1]);
      forall i | IsCrossing(yc[..n + 1], i) ensures i < n && IsCrossing(yc, i) {
        assert yc[..n + 1][i] == yc[i] && yc[..n + 1][i + 1] == yc[i + 1];
      }
      if IsCrossing(yc, n) then
        var zc := front + [n];
        assert forall j :: 0 <= j < |front| ==> zc[j] == front[j];
        zc
      else front
  }

  /** Every sign change is listed: together with the ensures of ZeroCrossings, the crossings
      are exactly the indices where the sign bit changes. */
  lemma {:induction false} ZeroCrossingsComplete(yc: seq<real>, i: int)
    requires IsCrossing(yc, i)
    ensures i in ZeroCrossings(yc)
  {
    var n := |yc| - 2;
    if i < n {
      assert IsCrossing(yc[..n + 1], i);
      ZeroCrossingsComplete(yc[..n + 1], i);
    }
  }

  /** np.diff of the crossing indices: the sample distance between consecutive crossings. */
  function Intervals(zc: seq<nat>): (r: seq<real>)
    requires |zc| > 0 && Increasing(zc)
    ensures |r| == |zc| - 1
    ensures forall i :: 0 <= i < |r| ==> r[i] == (zc[i + 1] - zc[i]) as real && r[i] >= 1.0
  {
    seq(|zc| - 1, i requires 0 <= i < |zc| - 1 => (zc[i + 1] - zc[i]) as real)
  }

  /** The mean interval, with 0 replaced by 1.0. */
  function MeanPeriod(intervals: seq<real>): real
    requires |intervals| > 0
  {
    if Mean(intervals) == 0.0 then 1.0 else Mean(intervals)
  }

  /** Consecutive crossings are at least one sample apart, so the mean interval is at least
      one and the replacement of a zero mean never applies. */
  lemma MeanPeriodAtLeastOne(intervals: seq<real>)
    requires |intervals| > 0
    requires forall i :: 0 <= i < |intervals| ==> intervals[i] >= 1.0
    ensures MeanPeriod(intervals) == Mean(intervals) >= 1.0
  {
    MeanAtLeast(intervals, 1.0);
  }

  lemma {:induction false} MeanAtLeast(s: seq<real>, lo: real)
    requires |s| > 0
    requires forall i :: 0 <= i < |s| ==> s[i] >= lo
    ensures Mean(s) >= lo
  {
    SumAtLeast(s, lo);
    var m := Mean(s);
    assert m * |s| as real == Sum(s);
  }

  lemma {:induction false} SumAtLeast(s: seq<real>, lo: real)
    requires forall i :: 0 <= i < |s| ==> s[i] >= lo
    ensures Sum(s) >= |s| as real * lo
  {
    if |s| > 0 {
      SumAtLeast(s[..|s| - 1], lo);
    }
  }

  /** jitter_local: half the mean absolute change of the interval over the mean interval. */
  function ZcrJitter(intervals: seq<real>): (j: real)
    requires |intervals| > 1
    requires forall i :: 0 <= i < |intervals| ==> intervals[i] >= 1.0
    ensures j >= 0.0
  {
    MeanPeriodAtLeastOne(intervals);
    var d, p := MeanAbsDiff(intervals), MeanPeriod(intervals);
    QuotientNonNegative(d, p);
    (d / p) * JitterScale
  }

  /** Evenly spaced crossings (a steady tone) give zero jitter. */
  lemma SteadyCrossingsHaveNoJitter(intervals: seq<real>)
    requires |intervals| > 1
    requires forall i :: 0 <= i < |intervals| ==> intervals[i] == intervals[0] >= 1.0
    ensures ZcrJitter(intervals) == 0.0
  {
    MeanAbsDiffOfConstant(intervals);
    MeanPeriodAtLeastOne(intervals);
    var d, p := MeanAbsDiff(intervals), MeanPeriod(intervals);
    ZeroOver(d, p);
  }

  /** f0_mean: a crossing every half period, so sr / (2 · mean interval). */
  function ZcrF0(sr: nat, meanPeriod: real): (f0: real)
    requires meanPeriod >= 1.0
    ensures 0.0 <= f0 <= sr as real / 2.0
    ensures sr > 0 ==> f0 > 0.0
  {
    var q := sr as real / (meanPeriod * 2.0);
    F0Bounds(sr as real, meanPeriod * 2.0, q);
    q
  }

  lemma F0Bounds(s: real, d: real, q: real)
    requires s >= 0.0 && d >= 2.0 && q == s / d
    ensures 0.0 <= q <= s / 2.0
    ensures s > 0.0 ==> q > 0.0
  {
    assert q * d == s;
    QuotientAntitoneReal(s, 2.0, d);
  }

  lemma QuotientAntitoneReal(s: real, m: real, l: real)
    requires s >= 0.0 && 0.0 < m <= l
    ensures s / l <= s / m
  {
    var a, b := s / l, s / m;
    assert a * l == s && b * m == s;
    ProductMonotone(m, l, a);
  }

  lemma FrameFits(len: nat, size: nat, k: nat)
    requires size > 0 && k < len / size
    ensures (k + 1) * size <= len
  {
    ProductMonotoneNat(k + 1, len / size, size);
  }

  /** The RMS energy sqrt(mean(frame²)) of whole frame k. */
  function FrameRms(lib: Numerics, y: seq<real>, size: nat, k: nat): (rms: real)
    requires Lawful(lib) && size > 0 && k < |y| / size
    ensures rms >= 0.0
  {
    FrameFits(|y|, size, k);
    var frame := y[k * size..(k + 1) * size];
    MeanSquareNonNegative(frame);
    lib.sqrt(Mean(Squares(frame)))
  }

  /** The RMS energy of each of the len // size whole frames; the tail is dropped. */
  function FrameEnergies(lib: Numerics, y: seq<real>, size: nat): (e: seq<real>)
    requires Lawful(lib) && size > 0
    ensures |e| == |y| / size
    ensures forall k :: 0 <= k < |e| ==> e[k] == FrameRms(lib, y, size, k) && e[k] >= 0.0
  {
    seq(|y| / size, k requires 0 <= k < |y| / size => FrameRms(lib, y, size, k))
  }

  /** energy[energy > t]: the values above the threshold, in their original order. */
  function Exceeding(e: seq<real>, t: real): (r: seq<real>)
    ensures |r| <= |e|
    ensures forall j :: 0 <= j < |r| ==> r[j] > t
    ensures multiset(r) <= multiset(e)
  {
    if |e| == 0 then []
    else
      var n := |e| - 1;
      var front := Exceeding(e[..n], t);
      assert e == e[..n] + [e[n]];
      if e[n] > t then front + [e[n]] else front
  }

  /** Nothing above the threshold is dropped. */
  lemma {:induction false} ExceedingComplete(e: seq<real>, t: real, i: int)
    requires 0 <= i < |e| && e[i] > t
    ensures e[i] in Exceeding(e, t)
  {
    var n := |e| - 1;
    if i < n {
      assert e[..n][i] == e[i];
      ExceedingComplete(e[..n], t, i);
    }
  }

  /** The active frames' energies: those above 1% of the loudest frame. */
  function ActiveEnergies(lib: Numerics, y: seq<real>, size: nat): (active: seq<real>)
    requires Lawful(lib) && size > 0 && |y| > size
    ensures forall j :: 0 <= j < |active| ==> active[j] >= 0.0
  {
    var e := FrameEnergies(lib, y, size);
    assert |e| > 0 by {
      assert 1 * size <= |y|;
    }
    var t := Max(e) * ActiveFraction;
    assert t >= 0.0 by {
      ProductNonNegative(Max(e), ActiveFraction);
    }
    Exceeding(e, t)
  }

  /** The shimmer of the active energies: 0.4 · mean|Δ| / (mean + 1e-9) over more than five
      of them, else 0.0. */
  function ShimmerOf(active: seq<real>): (s: real)
    requires forall j :: 0 <= j < |active| ==> active[j] >= 0.0
    ensures s >= 0.0
  {
    if |active| > MinActiveFrames then
      MeanNonNegative(active);
      var d, m := MeanAbsDiff(active), Mean(active) + ShimmerEpsilon;
      QuotientNonNegative(d, m);
      ShimmerScale * (d / m)
    else 0.0
  }

  /** shimmer_local, which is 0.0 for a signal no longer than one frame. */
  function ZcrShimmer(lib: Numerics, y: seq<real>, size: nat): (s: real)
    requires Lawful(lib) && size > 0
    ensures s >= 0.0
  {
    if |y| > size then ShimmerOf(ActiveEnergies(lib, y, size)) else 0.0
  }

  /** Active frames of equal energy give zero shimmer. */
  lemma SteadyEnergyHasNoShimmer(active: seq<real>)
    requires forall j :: 0 <= j < |active| ==> active[j] == active[0] >= 0.0
    ensures ShimmerOf(active) == 0.0
  {
    if |active| > MinActiveFrames {
      MeanAbsDiffOfConstant(active);
      MeanNonNegative(active);
      var d, m := MeanAbsDiff(active), Mean(active) + ShimmerEpsilon;
      ZeroOver(d, m);
    }
  }

  /** y[mid:mid+2048] for a signal longer than 4000 samples (cut short at the end), else
      the whole signal. */
  function HnrSegment(y: seq<real>): (seg: seq<real>)
    ensures |y| > LongSignal ==> 0 < |seg| <= SegmentLength
    ensures |y| <= LongSignal ==> seg == y
  {
    if |y| > LongSignal then
      var mid := |y| / 2;
      y[mid..if mid + SegmentLength < |y| then mid + SegmentLength else |y|]
    else y
  }

  /** segment - np.mean(segment). */
  function Centred(s: seq<real>): (c: seq<real>)
    requires |s| > 0
    ensures |c| == |s| && forall i :: 0 <= i < |s| ==> c[i] == s[i] - Mean(s)
  {
    var m := Mean(s);
    seq(|s|, i requires 0 <= i < |s| => s[i] - m)
  }

  /** corr / max_energy. */
  function Normalised(s: seq<real>, e: real): (r: seq<real>)
    requires e > 0.0
    ensures |r| == |s| && forall i :: 0 <= i < |s| ==> r[i] == s[i] / e
  {
    seq(|s|, i requires 0 <= i < |s| => s[i] / e)
  }

  /** The peak correlation pinned into [0.01, 0.99]: the ceiling applies first, then the
      floor. */
  function ClampPeak(p: real): (c: real)
    ensures PeakFloor <= c <= PeakCeiling
    ensures PeakFloor < p < PeakCeiling ==> c == p
  {
    var high := if p >= PeakCeiling then PeakCeiling else p;
    if high <= PeakFloor then PeakFloor else high
  }

  /** The odds p / (1 - p) of a clamped peak lie in [1/99, 99], so the HNR lies within
      ±10·log10(99). */
  lemma ClampedOddsBounds(p: real)
    requires PeakFloor <= p <= PeakCeiling
    ensures 1.0 / 99.0 <= p / (1.0 - p) <= 99.0
  {
    QuotientWithin(p, 1.0 - p, 1.0 / 99.0, 99.0);
  }

  lemma QuotientWithin(a: real, d: real, lo: real, hi: real)
    requires d > 0.0 && lo * d <= a <= hi * d
    ensures lo <= a / d <= hi
  {
    var q := a / d;
    assert q * d == a;
    assert (hi - q) * d == hi * d - a;
    assert (q - lo) * d == a - lo * d;
    FactorSign(hi - q, d);
    FactorSign(q - lo, d);
  }

  lemma FactorSign(x: real, d: real)
    requires d > 0.0 && x * d >= 0.0
    ensures x >= 0.0
  {
  }

  /** The HNR estimate: 10·log10(p / (1 - p)) for the clamped peak p of the normalised
      autocorrelation over the lags [int(sr/500), int(sr/50)), or 0.0 when the segment is not
      longer than twice the lag window's end, the segment has no energy, or the window is
      empty. */
  function ZcrHnr(y: seq<real>, sr: nat): (hnr: Decibels)
    ensures hnr == Db(0.0) || (hnr.TenLog10? && 1.0 / 99.0 <= hnr.ratio <= 99.0)
    ensures |HnrSegment(y)| <= 2 * (sr / FramesPerSecond) ==> hnr == Db(0.0)
  {
    var minLag, maxLag := sr / 500, sr / FramesPerSecond;
    var seg := HnrSegment(y);
    if |seg| > 2 * maxLag then
      var corr := Autocorrelation(Centred(seg));
      var energy := corr[0];
      if energy > 0.0 then
        var valid := Normalised(corr, energy)[minLag..maxLag];
        if |valid| > 0 then
          var p := ClampPeak(Max(valid));
          ClampedOddsBounds(p);
          TenLog10(p / (1.0 - p))
        else Db(0.0)
      else Db(0.0)
    else Db(0.0)
  }

  /** The three outcomes of the HNR estimate on a segment longer than twice the lag
      window's end. A segment without energy at lag 0 gives 0.0. So does an empty lag
      window, which happens exactly below 50 Hz. Otherwise the result is the log-odds of
      the clamped maximum of the normalised autocorrelation over the window. */
  lemma HnrOutcomes(y: seq<real>, sr: nat)
    requires |HnrSegment(y)| > 2 * (sr / FramesPerSecond)
    ensures var minLag, maxLag := sr / 500, sr / FramesPerSecond;
      var corr := Autocorrelation(Centred(HnrSegment(y)));
      && (corr[0] <= 0.0 ==> corr[0] == 0.0 && ZcrHnr(y, sr) == Db(0.0))
      && (minLag < maxLag <==> sr >= FramesPerSecond)
      && (corr[0] > 0.0 && sr < FramesPerSecond ==> ZcrHnr(y, sr) == Db(0.0))
      && (corr[0] > 0.0 && sr >= FramesPerSecond ==>
            var p := ClampPeak(Max(Normalised(corr, corr[0])[minLag..maxLag]));
            ZcrHnr(y, sr) == TenLog10(p / (1.0 - p)))
  {
    var seg := HnrSegment(y);
    AutocorrelationEnergyNonNegative(Centred(seg));
  }

  /** A higher clamped peak never gives lower odds, so a stronger periodicity never lowers
      the HNR. */
  lemma OddsMonotone(p: real, q: real)
    requires PeakFloor <= p <= q <= PeakCeiling
    ensures p / (1.0 - p) <= q / (1.0 - q)
  {
    assert p / (1.0 - p) == 1.0 / (1.0 - p) - 1.0 by {
      OddsAsReciprocal(p);
    }
    assert q / (1.0 - q) == 1.0 / (1.0 - q) - 1.0 by {
      OddsAsReciprocal(q);
    }
    ReciprocalAntitone(1.0 - p, 1.0 - q);
  }

  lemma OddsAsReciprocal(p: real)
    requires p < 1.0
    ensures p / (1.0 - p) == 1.0 / (1.0 - p) - 1.0
  {
    var a := 1.0 - p;
    assert p == 1.0 - a;
    assert (1.0 - a) / a == 1.0 / a - a / a;
  }

  lemma ReciprocalAntitone(a: real, b: real)
    requires a >= b > 0.0
    ensures 1.0 / a <= 1.0 / b
  {
    assert 1.0 / a * a == 1.0 && 1.0 / b * b == 1.0;
    assert (1.0 / b - 1.0 / a) * (a * b) == a - b;
    FactorSign(1.0 / b - 1.0 / a, a * b);
  }

  /** The entries the extractor writes, as a function of the signal: only a False verdict
      when the filter raises (too short) or there are fewer than ten crossings; jitter then a
      False verdict when the frame size is zero (the frame division raises); otherwise all
      five features with a True verdict. */
  function NumpyFeatures(lib: Numerics, y: seq<real>, sr: nat): map<FeatureKey, FeatureValue>
    requires Lawful(lib)
  {
    if |y| <= PadLen then map[ValidVoiceDetected := Flag(false)]
    else
      var zc := ZeroCrossings(lib.lowPass(y));
      if |zc| < MinCrossings then map[ValidVoiceDetected := Flag(false)]
      else IntervalFeatures(lib, y, sr, Intervals(zc))
  }

  /** The entries written once there are enough crossings, from their intervals. */
  function IntervalFeatures(lib: Numerics, y: seq<real>, sr: nat, intervals: seq<real>): map<FeatureKey, FeatureValue>
    requires Lawful(lib) && |intervals| > 1
    requires forall i :: 0 <= i < |intervals| ==> intervals[i] >= 1.0
  {
    MeanPeriodAtLeastOne(intervals);
    map[JitterLocal := Number(ZcrJitter(intervals))] + FrameFeatures(lib, y, sr, MeanPeriod(intervals))
  }

  /** The entries written after jitter: a False verdict when the frame size is zero (the
      frame division raises), otherwise shimmer, HNR, mean f0 and a True verdict. */
  function FrameFeatures(lib: Numerics, y: seq<real>, sr: nat, meanPeriod: real): map<FeatureKey, FeatureValue>
    requires Lawful(lib) && meanPeriod >= 1.0
  {
    var size := sr / FramesPerSecond;
    if size == 0 then map[ValidVoiceDetected := Flag(false)]
    else
      map[ShimmerLocal := Number(ZcrShimmer(lib, y, size))]
         [Hnr := Level(ZcrHnr(y, sr))]
         [F0Mean := Number(ZcrF0(sr, meanPeriod))]
         [ValidVoiceDetected := Flag(true)]
  }

  /** The verdict after jitter is True exactly when the frame size is non-zero, and the
      keys written are the verdict alone or the four frame-based features. */
  lemma FrameFeaturesKeys(lib: Numerics, y: seq<real>, sr: nat, meanPeriod: real)
    requires Lawful(lib) && meanPeriod >= 1.0
    ensures var f := FrameFeatures(lib, y, sr, meanPeriod);
      && ValidVoiceDetected in f && f[ValidVoiceDetected] == Flag(sr >= FramesPerSecond)
      && f.Keys == if sr < FramesPerSecond then {ValidVoiceDetected}
                   else {ShimmerLocal, Hnr, F0Mean, ValidVoiceDetected}
  {
  }

  /** The interval stage adds jitter to what the frame stage writes, and leaves its verdict. */
  lemma IntervalFeaturesKeys(lib: Numerics, y: seq<real>, sr: nat, intervals: seq<real>)
    requires Lawful(lib) && |intervals| > 1
    requires forall i :: 0 <= i < |intervals| ==> intervals[i] >= 1.0
    ensures var f := IntervalFeatures(lib, y, sr, intervals);
      && ValidVoiceDetected in f && f[ValidVoiceDetected] == Flag(sr >= FramesPerSecond)
      && f.Keys == if sr < FramesPerSecond then {JitterLocal, ValidVoiceDetected}
                   else {JitterLocal, ShimmerLocal, Hnr, F0Mean, ValidVoiceDetected}
  {
    MeanPeriodAtLeastOne(intervals);
    FrameFeaturesKeys(lib, y, sr, MeanPeriod(intervals));
  }

  /** A voice is detected exactly when the signal is longer than the filter's pad length,
      the filtered signal crosses zero at least ten times and the rate gives a non-empty
      shimmer frame; the verdict is always written. Fewer than ten crossings (or a filter
      failure) write the verdict and nothing else; a zero frame size leaves the jitter
      already written; a detected voice has exactly the five keys and no others. */
  lemma FeatureKeys(lib: Numerics, y: seq<real>, sr: nat)
    requires Lawful(lib)
    ensures var f := NumpyFeatures(lib, y, sr);
      && ValidVoiceDetected in f
      && (f[ValidVoiceDetected] == Flag(true) <==>
            |y| > PadLen && |ZeroCrossings(lib.lowPass(y))| >= MinCrossings && sr >= FramesPerSecond)
      && f[ValidVoiceDetected] in {Flag(true), Flag(false)}
      && ((|y| <= PadLen || |ZeroCrossings(lib.lowPass(y))| < MinCrossings) ==> f.Keys == {ValidVoiceDetected})
      && ((|y| > PadLen && |ZeroCrossings(lib.lowPass(y))| >= MinCrossings && sr < FramesPerSecond)
            ==> f.Keys == {JitterLocal, ValidVoiceDetected})
      && (f[ValidVoiceDetected] == Flag(true) ==>
            f.Keys == {JitterLocal, ShimmerLocal, Hnr, F0Mean, ValidVoiceDetected})
  {
    if |y| > PadLen {
      var zc := ZeroCrossings(lib.lowPass(y));
      if |zc| >= MinCrossings {
        IntervalFeaturesKeys(lib, y, sr, Intervals(zc));
      }
    }
  }

  /** The verdict entry is present and True. */
  predicate Detected(f: map<FeatureKey, FeatureValue>) {
    ValidVoiceDetected in f && f[ValidVoiceDetected] == Flag(true)
  }

  /** The five features of a detected voice: non-negative jitter and shimmer, an HNR of 0.0
      or within ±10·log10(99), and a mean f0 above zero and at most half the sample rate. */
  predicate BoundedFeatures(f: map<FeatureKey, FeatureValue>, sr: nat) {
    && f.Keys == {JitterLocal, ShimmerLocal, Hnr, F0Mean, ValidVoiceDetected}
    && f[JitterLocal].Number? && f[JitterLocal].x >= 0.0
    && f[ShimmerLocal].Number? && f[ShimmerLocal].x >= 0.0
    && f[Hnr].Level?
    && (f[Hnr].db == Db(0.0) || (f[Hnr].db.TenLog10? && 1.0 / 99.0 <= f[Hnr].db.ratio <= 99.0))
    && f[F0Mean].Number? && 0.0 < f[F0Mean].x <= sr as real / 2.0
  }

  /** A detected voice has exactly the five features, each within its bounds. */
  lemma FeatureBounds(lib: Numerics, y: seq<real>, sr: nat)
    requires Lawful(lib) && Detected(NumpyFeatures(lib, y, sr))
    ensures BoundedFeatures(NumpyFeatures(lib, y, sr), sr)
  {
    if |y| > PadLen {
      var zc := ZeroCrossings(lib.lowPass(y));
      if |zc| >= MinCrossings {
        var intervals := Intervals(zc);
        assert NumpyFeatures(lib, y, sr) == IntervalFeatures(lib, y, sr, intervals);
        IntervalFeatureBounds(lib, y, sr, intervals);
      }
    }
  }

  /** When the interval stage detects a voice, it writes the five bounded features. */
  lemma IntervalFeatureBounds(lib: Numerics, y: seq<real>, sr: nat, intervals: seq<real>)
    requires Lawful(lib) && |intervals| > 1
    requires forall i :: 0 <= i < |intervals| ==> intervals[i] >= 1.0
    requires Detected(IntervalFeatures(lib, y, sr, intervals))
    ensures BoundedFeatures(IntervalFeatures(lib, y, sr, intervals), sr)
  {
    IntervalFeaturesKeys(lib, y, sr, intervals);
    assert sr >= FramesPerSecond;
    MeanPeriodAtLeastOne(intervals);
    var p := MeanPeriod(intervals);
    var j, s, h, f0 := ZcrJitter(intervals), ZcrShimmer(lib, y, sr / FramesPerSecond), ZcrHnr(y, sr), ZcrF0(sr, p);
    var frame := map[ShimmerLocal := Number(s), Hnr := Level(h), F0Mean := Number(f0), ValidVoiceDetected := Flag(true)];
    assert FrameFeatures(lib, y, sr, p) == frame;
    assert IntervalFeatures(lib, y, sr, intervals) == map[JitterLocal := Number(j)] + frame;
    FiveFeaturesBounded(j, s, h, f0, sr);
  }

  lemma FiveFeaturesBounded(j: real, s: real, h: Decibels, f0: real, sr: nat)
    requires j >= 0.0 && s >= 0.0 && 0.0 < f0 <= sr as real / 2.0
    requires h == Db(0.0) || (h.TenLog10? && 1.0 / 99.0 <= h.ratio <= 99.0)
    ensures BoundedFeatures(map[JitterLocal := Number(j)] + map[ShimmerLocal := Number(s), Hnr := Level(h),
                                 F0Mean := Number(f0), ValidVoiceDetected := Flag(true)], sr)
  {
  }

  /** Writing one more entry after a batch of writes is the same as adding it to the batch. */
  lemma UnionUpdate(m: map<FeatureKey, FeatureValue>, w: map<FeatureKey, FeatureValue>, k: FeatureKey, v: FeatureValue)
    ensures (m + w)[k := v] == m + w[k := v]
  {
  }

  /** _extract_numpy_features: fill the caller's dictionary step by step; an early return
      or a raised error leaves the entries written so far plus a False verdict. */
  method ExtractNumpyFeatures(lib: Numerics, y: seq<real>, sr: nat, features: FeatureDict)
    requires Lawful(lib)
    modifies features
    ensures features.entries == old(features.entries) + NumpyFeatures(lib, y, sr)
  {
    if |y| <= PadLen {
      // filtfilt raises on a signal not longer than its pad length
      features.Put(ValidVoiceDetected, Flag(false));
      UnionUpdate(old(features.entries), map[], ValidVoiceDetected, Flag(false));
      return;
    }
    var yClean := lib.lowPass(y);
    var zc := ZeroCrossings(yClean);
    if |zc| < MinCrossings {
      features.Put(ValidVoiceDetected, Flag(false));
      UnionUpdate(old(features.entries), map[], ValidVoiceDetected, Flag(false));
      return;
    }
    WriteIntervalFeatures(lib, y, sr, Intervals(zc), features);
  }

  /** From the crossing intervals on: jitter, then the frame-based features. */
  method WriteIntervalFeatures(lib: Numerics, y: seq<real>, sr: nat, intervals: seq<real>, features: FeatureDict)
    requires Lawful(lib) && |intervals| > 1
    requires forall i :: 0 <= i < |intervals| ==> intervals[i] >= 1.0
    modifies features
    ensures features.entries == old(features.entries) + IntervalFeatures(lib, y, sr, intervals)
  {
    var meanPeriod := Mean(intervals);
    if meanPeriod == 0.0 {
      meanPeriod := 1.0;
    }
    assert meanPeriod == MeanPeriod(intervals);
    MeanPeriodAtLeastOne(intervals);
    var jitter := MeanAbsDiff(intervals) / meanPeriod;
    assert jitter * JitterScale == ZcrJitter(intervals);
    features.Put(JitterLocal, Number(jitter * JitterScale));
    WriteFrameFeatures(lib, y, sr, meanPeriod, features);
  }

  /** Shimmer, HNR and mean f0 with a True verdict, or a False verdict when the frame size
      int(sr·0.02) is zero and len(y) // 0 raises. */
  method WriteFrameFeatures(lib: Numerics, y: seq<real>, sr: nat, meanPeriod: real, features: FeatureDict)
    requires Lawful(lib) && meanPeriod >= 1.0
    modifies features
    ensures features.entries == old(features.entries) + FrameFeatures(lib, y, sr, meanPeriod)
  {
    var frameSize := sr / FramesPerSecond;
    if frameSize == 0 {
      // the handler catches the ZeroDivisionError
      features.Put(ValidVoiceDetected, Flag(false));
      return;
    }
    var shimmer := ZcrShimmer(lib, y, frameSize);
    var hnr := ZcrHnr(y, sr);
    var f0 := sr as real / (meanPeriod * 2.0);
    assert f0 == ZcrF0(sr, meanPeriod);
    Overlay(features.entries, Number(shimmer), Level(hnr), Number(f0), Flag(true));
    features.Put(ShimmerLocal, Number(shimmer));
    features.Put(Hnr, Level(hnr));
    features.Put(F0Mean, Number(f0));
    features.Put(ValidVoiceDetected, Flag(true));
  }

  /** Writing the four frame-based entries one after another overlays them on the
      dictionary. */
  lemma Overlay(m: map<FeatureKey, FeatureValue>, s: FeatureValue, h: FeatureValue, f: FeatureValue, v: FeatureValue)
    ensures m[ShimmerLocal := s][Hnr := h][F0Mean := f][ValidVoiceDetected := v]
         == m + map[ShimmerLocal := s][Hnr := h][F0Mean := f][ValidVoiceDetected := v]
  {
  }

  /** extract_features: a fresh dictionary filled by the extractor. */
  method ExtractFeatures(lib: Numerics, y: seq<real>, sr: nat) returns (features: FeatureDict)
    requires Lawful(lib)
    ensures fresh(features)
    ensures features.entries == NumpyFeatures(lib, y, sr)
  {
    features := new FeatureDict();
    ExtractNumpyFeatures(lib, y, sr, features);
  }
}
