/** The autocorrelation-based feature extractor: per-frame pitch by an autocorrelation lag
    search with a voicing threshold, jitter and shimmer as relative mean absolute
    differences of the voiced periods and peaks, and a harmonic-to-noise estimate from the
    autocorrelation of a centred segment. */
module RobustFeatures {
  import opened Signal

  const MinF0: nat := 75
  const MaxF0: nat := 600
  const VoicingThreshold: real := 0.3
  const MinFrames: nat := 5
  const MinVoicedFrames: nat := 3
  const HnrWindow: nat := 4096

  datatype Pitch = Pitch(f0: real, voiced: bool)

  /** np.argmax: the first index holding the maximum. */
  function ArgMaxFirst(s: seq<real>): (k: nat)
    requires |s| > 0
    ensures k < |s|
    ensures forall i :: 0 <= i < |s| ==> s[i] <= s[k]
    ensures forall i :: 0 <= i < k ==> s[i] < s[k]
  {
    if |s| == 1 then 0
    else
      var k := ArgMaxFirst(s[..|s| - 1]);
      assert forall i :: 0 <= i < |s| - 1 ==> s[..|s| - 1][i] == s[i];
      if s[|s| - 1] > s[k] then |s| - 1 else k
  }

  /** The upper end of the lag window, int(sr / 75), cut back to len(acf) - 1. */
  function MaxLag(sr: nat, n: nat): int {
    if sr / MinF0 >= n then n - 1 else sr / MinF0
  }

  /** Pitch of one (windowed) frame: the strongest autocorrelation peak over the lags
      [int(sr/600), max_lag), accepted as voiced when it is at least 0.3 of the energy. */
  function ExtractPitch(y: seq<real>, sr: nat): (p: Pitch)
    requires sr >= MaxF0
    ensures !p.voiced ==> p.f0 == 0.0
    ensures p.voiced ==> MinF0 as real < p.f0 <= sr as real / (sr / MaxF0) as real
  {
    var acf := Autocorrelation(y);
    var minLag := sr / MaxF0;
    var maxLag := MaxLag(sr, |acf|);
    if maxLag <= minLag then Pitch(0.0, false)
    else
      var valid := acf[minLag..maxLag];
      var peakIdx := ArgMaxFirst(valid);
      var peakVal := valid[peakIdx];
      var trueLag := minLag + peakIdx;
      var energy := acf[0];
      if energy == 0.0 then Pitch(0.0, false)
      else if peakVal / energy < VoicingThreshold then Pitch(0.0, false)
      else
        PitchRange(sr, minLag, trueLag);
        Pitch(sr as real / trueLag as real, true)
  }

  /** A lag inside the window gives a frequency above 75 Hz and at most sr / min_lag. */
  lemma PitchRange(sr: nat, minLag: nat, lag: nat)
    requires sr >= MaxF0 && minLag == sr / MaxF0 && minLag <= lag < sr / MinF0
    ensures MinF0 as real < sr as real / lag as real <= sr as real / minLag as real
  {
    assert lag >= 1;
    assert MinF0 * lag < sr by {
      assert lag <= sr / MinF0 - 1;
      assert MinF0 * (sr / MinF0) <= sr;
    }
    var l, m, s := lag as real, minLag as real, sr as real;
    assert (MinF0 * lag) as real == MinF0 as real * l;
    QuotientAbove(s, l, MinF0 as real);
    QuotientAntitone(s, m, l);
  }

  lemma QuotientAbove(s: real, l: real, c: real)
    requires l > 0.0 && c * l < s
    ensures c < s / l
  {
  }

  lemma QuotientAntitone(s: real, m: real, l: real)
    requires s >= 0.0 && 0.0 < m <= l
    ensures s / l <= s / m
  {
    var a, b := s / l, s / m;
    assert a * l == s && b * m == s;
    ProductMonotone(m, l, a);
  }

  /** The pitch is unvoiced when the lag window is empty (a frame too short for it), and
      voiced exactly when the window is non-empty, the energy acf[0] is non-zero and the
      first maximal peak reaches 0.3 of it; the frequency is then sr over that peak's lag. */
  lemma PitchDecision(y: seq<real>, sr: nat)
    requires sr >= MaxF0
    ensures var acf := Autocorrelation(y);
      var minLag, maxLag := sr / MaxF0, MaxLag(sr, |acf|);
      && (maxLag <= minLag ==> ExtractPitch(y, sr) == Pitch(0.0, false))
      && (maxLag > minLag ==>
            var valid := acf[minLag..maxLag];
            var k := ArgMaxFirst(valid);
            && (ExtractPitch(y, sr).voiced <==> acf[0] != 0.0 && valid[k] / acf[0] >= VoicingThreshold)
            && (ExtractPitch(y, sr).voiced ==> ExtractPitch(y, sr).f0 == sr as real / (minLag + k) as real))
  {
  }

  function FrameLen(sr: nat): nat {
    sr * 3 / 100
  }

  function HopLen(sr: nat): nat {
    sr / 100
  }

  /** (len(y) - frame_len) // hop_len, which is negative for signals shorter than a frame. */
  function NumFrames(len: nat, sr: nat): int
    requires sr >= MaxF0
  {
    (len - FrameLen(sr)) / HopLen(sr)
  }

  lemma FrameInBounds(len: nat, sr: nat, i: nat)
    requires sr >= MaxF0 && i < NumFrames(len, sr)
    ensures i * HopLen(sr) + FrameLen(sr) + HopLen(sr) <= len
  {
    var h, f, n := HopLen(sr), FrameLen(sr), NumFrames(len, sr);
    assert n * h <= len - f;
    assert (i + 1) * h <= n * h by {
      ProductMonotoneNat(i + 1, n, h);
    }
  }

  /** Frame i: frame_len samples starting at i * hop_len. */
  function Frame(y: seq<real>, sr: nat, i: nat): (frame: seq<real>)
    requires sr >= MaxF0 && i < NumFrames(|y|, sr)
    ensures |frame| == FrameLen(sr) > 0
    ensures frame == y[i * HopLen(sr)..i * HopLen(sr) + FrameLen(sr)]
  {
    FrameInBounds(|y|, sr, i);
    y[i * HopLen(sr)..i * HopLen(sr) + FrameLen(sr)]
  }

  /** The pitch of frame i after the Hann window. */
  function FramePitch(lib: Numerics, y: seq<real>, sr: nat, i: nat): Pitch
    requires Lawful(lib) && sr >= MaxF0 && i < NumFrames(|y|, sr)
  {
    var frame := Frame(y, sr, i);
    ExtractPitch(Times(frame, lib.hanning(|frame|)), sr)
  }

  /** How many frames the loop visits: num_frames, or none when that is negative. */
  function FrameCount(len: nat, sr: nat): nat
    requires sr >= MaxF0
  {
    if NumFrames(len, sr) < 0 then 0 else NumFrames(len, sr)
  }

  /** The pitch of every frame, in frame order. */
  function FramePitches(lib: Numerics, y: seq<real>, sr: nat): (pitches: seq<Pitch>)
    requires Lawful(lib) && sr >= MaxF0
    ensures |pitches| == FrameCount(|y|, sr)
    ensures forall i :: 0 <= i < |pitches| ==> pitches[i] == FramePitch(lib, y, sr, i)
    ensures forall i :: 0 <= i < |pitches| && pitches[i].voiced ==> pitches[i].f0 > MinF0 as real
  {
    seq(FrameCount(|y|, sr), i requires 0 <= i < FrameCount(|y|, sr) => FramePitch(lib, y, sr, i))
  }

  /** The peak amplitude max|frame| of every frame, in frame order. */
  function FramePeaks(y: seq<real>, sr: nat): (peaks: seq<real>)
    requires sr >= MaxF0
    ensures |peaks| == FrameCount(|y|, sr)
    ensures forall i :: 0 <= i < |peaks| ==> peaks[i] == MaxAbs(Frame(y, sr, i)) && peaks[i] >= 0.0
  {
    seq(FrameCount(|y|, sr), i requires 0 <= i < FrameCount(|y|, sr) => MaxAbs(Frame(y, sr, i)))
  }

  /** The voiced frames' pitches and peak amplitudes, as the two parallel lists the frame
      loop builds. */
  datatype Track = Track(f0s: seq<real>, peaks: seq<real>)

  /** The track built from per-frame pitches and peaks: each voiced frame appends its f0
      and its peak to the two lists together. */
  function Collect(pitches: seq<Pitch>, amps: seq<real>): (t: Track)
    requires |pitches| == |amps|
    ensures |t.f0s| == |t.peaks| <= |pitches|
  {
    if |pitches| == 0 then Track([], [])
    else
      var n := |pitches| - 1;
      var t := Collect(pitches[..n], amps[..n]);
      if pitches[n].voiced then Track(t.f0s + [pitches[n].f0], t.peaks + [amps[n]]) else t
  }

  /** The indices of the voiced frames, in increasing order (all of them, by
      VoicedIndicesComplete). */
  function VoicedIndices(pitches: seq<Pitch>): (idx: seq<nat>)
    ensures forall j :: 0 <= j < |idx| ==> idx[j] < |pitches| && pitches[idx[j]].voiced
    ensures forall j, k :: 0 <= j < k < |idx| ==> idx[j] < idx[k]
  {
    if |pitches| == 0 then []
    else
      var n := |pitches| - 1;
      var front := VoicedIndices(pitches[..n]);
      assert forall i :: 0 <= i < n ==> pitches[..n][i] == pitches[i];
      if pitches[n].voiced then
        var idx := front + [n];
        assert forall j :: 0 <= j < |front| ==> idx[j] == front[j];
        idx
      else front
  }

  /** Every voiced frame is listed. */
  lemma {:induction false} VoicedIndicesComplete(pitches: seq<Pitch>)
    ensures forall i :: 0 <= i < |pitches| && pitches[i].voiced ==> i in VoicedIndices(pitches)
  {
    if |pitches| > 0 {
      var n := |pitches| - 1;
      VoicedIndicesComplete(pitches[..n]);
      assert forall i :: 0 <= i < n ==> pitches[..n][i] == pitches[i];
    }
  }

  /** Entry j of both lists comes from the same voiced frame, namely the j-th voiced one;
      with the ordering of VoicedIndices the lists follow frame order and hold every voiced
      frame. */
  lemma {:induction false} CollectFollowsFrameOrder(pitches: seq<Pitch>, amps: seq<real>)
    requires |pitches| == |amps|
    ensures var t, idx := Collect(pitches, amps), VoicedIndices(pitches);
      && |idx| == |t.f0s|
      && forall j :: 0 <= j < |idx| ==> t.f0s[j] == pitches[idx[j]].f0 && t.peaks[j] == amps[idx[j]]
  {
    if |pitches| > 0 {
      var n := |pitches| - 1;
      var p0, a0 := pitches[..n], amps[..n];
      CollectFollowsFrameOrder(p0, a0);
      var t0, idx0 := Collect(p0, a0), VoicedIndices(p0);
      assert forall j :: 0 <= j < |idx0| ==> t0.f0s[j] == pitches[idx0[j]].f0 && t0.peaks[j] == amps[idx0[j]] by {
        forall j | 0 <= j < |idx0| ensures t0.f0s[j] == pitches[idx0[j]].f0 && t0.peaks[j] == amps[idx0[j]] {
          assert p0[idx0[j]] == pitches[idx0[j]] && a0[idx0[j]] == amps[idx0[j]];
        }
      }
      if pitches[n].voiced {
        assert VoicedIndices(pitches) == idx0 + [n];
        assert Collect(pitches, amps) == Track(t0.f0s + [pitches[n].f0], t0.peaks + [amps[n]]);
        AppendKeepsPairing(t0, idx0, pitches, amps, n);
      } else {
        assert VoicedIndices(pitches) == idx0 && Collect(pitches, amps) == t0;
      }
    }
  }

  /** Appending frame n to a pairing of the lists with the voiced indices keeps it one. */
  lemma AppendKeepsPairing(t: Track, idx: seq<nat>, pitches: seq<Pitch>, amps: seq<real>, n: nat)
    requires n < |pitches| == |amps| && |idx| == |t.f0s| == |t.peaks|
    requires forall j :: 0 <= j < |idx| ==> idx[j] < |pitches|
    requires forall j :: 0 <= j < |idx| ==> t.f0s[j] == pitches[idx[j]].f0 && t.peaks[j] == amps[idx[j]]
    ensures var t', idx' := Track(t.f0s + [pitches[n].f0], t.peaks + [amps[n]]), idx + [n];
      forall j :: 0 <= j < |idx'| ==> t'.f0s[j] == pitches[idx'[j]].f0 && t'.peaks[j] == amps[idx'[j]]
  {
  }

  /** Collected values inherit the per-frame bounds: voiced f0 above 75 Hz and peaks
      non-negative. */
  lemma {:induction false} CollectBounds(pitches: seq<Pitch>, amps: seq<real>)
    requires |pitches| == |amps|
    requires forall i :: 0 <= i < |pitches| && pitches[i].voiced ==> pitches[i].f0 > MinF0 as real
    requires forall i :: 0 <= i < |amps| ==> amps[i] >= 0.0
    ensures forall j :: 0 <= j < |Collect(pitches, amps).f0s| ==> Collect(pitches, amps).f0s[j] > MinF0 as real
    ensures forall j :: 0 <= j < |Collect(pitches, amps).peaks| ==> Collect(pitches, amps).peaks[j] >= 0.0
  {
    CollectFollowsFrameOrder(pitches, amps);
  }

  /** The track of the whole signal. */
  function VoicedTrack(lib: Numerics, y: seq<real>, sr: nat): Track
    requires Lawful(lib) && sr >= MaxF0
  {
    Collect(FramePitches(lib, y, sr), FramePeaks(y, sr))
  }

  /** mean|Δs| / mean(s) when the mean is positive, else 0. */
  function RelativeMeanAbsDiff(s: seq<real>): (r: real)
    requires |s| > 1
    ensures r >= 0.0
  {
    var avg := Mean(s);
    if avg > 0.0 then
      QuotientNonNegative(MeanAbsDiff(s), avg);
      MeanAbsDiff(s) / avg
    else 0.0
  }

  lemma RelativeMeanAbsDiffOfConstant(s: seq<real>)
    requires |s| > 1
    requires forall i :: 0 <= i < |s| ==> s[i] == s[0]
    ensures RelativeMeanAbsDiff(s) == 0.0
  {
    MeanAbsDiffOfConstant(s);
    var d, avg := MeanAbsDiff(s), Mean(s);
    if avg > 0.0 {
      ZeroOver(d, avg);
    }
  }

  /** Periods 1 / (f0 + 1e-6). */
  function Periods(f0s: seq<real>): (periods: seq<real>)
    requires forall i :: 0 <= i < |f0s| ==> f0s[i] >= 0.0
    ensures |periods| == |f0s|
    ensures forall i :: 0 <= i < |f0s| ==> periods[i] == 1.0 / (f0s[i] + 0.000001) && periods[i] > 0.0
  {
    seq(|f0s|, i requires 0 <= i < |f0s| => 1.0 / (f0s[i] + 0.000001))
  }

  /** The centred window y[mid - h : mid + h] with h = min(len, 4096) // 2. */
  function CentredSegment(y: seq<real>): (seg: seq<real>)
    ensures |seg| == 2 * ((if |y| < HnrWindow then |y| else HnrWindow) / 2)
    ensures |seg| <= HnrWindow && |seg| + 1 >= (if |y| < HnrWindow then |y| else HnrWindow)
  {
    var mid := |y| / 2;
    var half := (if |y| < HnrWindow then |y| else HnrWindow) / 2;
    y[mid - half..mid + half]
  }

  /** 10·log10(harmonic / noise) with harmonic = peak and noise = energy - peak + 1e-6,
      or 100 dB when the peak is not below the energy. The noise term is always positive. */
  function HnrOfPeak(peak: real, energy: real): (hnr: Decibels)
    ensures hnr.Db? <==> energy <= peak
    ensures hnr.Db? ==> hnr.value == 100.0
    ensures hnr.TenLog10? ==> energy - peak + 0.000001 > 0.000001 && hnr.ratio * (energy - peak + 0.000001) == peak
  {
    if energy > peak then
      var noise := energy - peak + 0.000001;
      QuotientTimes(peak, noise, peak / noise);
      TenLog10(peak / noise)
    else Db(100.0)
  }

  /** HNR from the centred segment's autocorrelation: the strongest correlation over the
      lags [int(sr/600), int(sr/75)) against the lag-0 energy, or 0 dB when the segment is
      too short for that lag window. */
  function SegmentHnr(y: seq<real>, sr: nat): (hnr: Decibels)
    requires sr >= MaxF0
    ensures |CentredSegment(y)| <= sr / MinF0 ==> hnr == Db(0.0)
    ensures |CentredSegment(y)| > sr / MinF0 ==> hnr != Db(0.0)
  {
    var acf := Autocorrelation(CentredSegment(y));
    var minLag, maxLag := sr / MaxF0, sr / MinF0;
    if maxLag < |acf| then
      var window := acf[minLag..maxLag];
      HnrOfPeak(window[ArgMaxFirst(window)], acf[0])
    else Db(0.0)
  }

  /** The result dictionary: the all-zero early return (keys jitter, shimmer, hnr, f0) or
      the measured values (keys jitter_local, shimmer_local, hnr, f0_mean). */
  datatype VoiceMeasures =
    | Insufficient
    | Measured(jitterLocal: real, shimmerLocal: real, hnr: Decibels, f0Mean: real)

  function ResultKeys(r: VoiceMeasures): set<string> {
    match r
    case Insufficient => {"jitter", "shimmer", "hnr", "f0"}
    case Measured(_, _, _, _) => {"jitter_local", "shimmer_local", "hnr", "f0_mean"}
  }

  /** Jitter, shimmer, HNR and mean f0 of a collected track, or the all-zero result when
      fewer than three frames were voiced. */
  function Summarise(t: Track, y: seq<real>, sr: nat): (r: VoiceMeasures)
    requires sr >= MaxF0 && |t.f0s| == |t.peaks|
    requires forall j :: 0 <= j < |t.f0s| ==> t.f0s[j] > MinF0 as real
  {
    if |t.f0s| < MinVoicedFrames then Insufficient
    else
      Measured(RelativeMeanAbsDiff(Periods(t.f0s)), RelativeMeanAbsDiff(t.peaks),
               SegmentHnr(y, sr), Mean(t.f0s))
  }

  /** The whole extraction as a function of the signal. */
  function JitterShimmerHnr(lib: Numerics, y: seq<real>, sr: nat): (r: VoiceMeasures)
    requires Lawful(lib) && sr >= MaxF0
  {
    if NumFrames(|y|, sr) < MinFrames then Insufficient
    else
      CollectBounds(FramePitches(lib, y, sr), FramePeaks(y, sr));
      Summarise(VoicedTrack(lib, y, sr), y, sr)
  }

  /** Fewer than five frames or fewer than three voiced ones give the all-zero result;
      otherwise jitter and shimmer are non-negative and the mean f0 is above 75 Hz. */
  lemma MeasuresBounds(lib: Numerics, y: seq<real>, sr: nat)
    requires Lawful(lib) && sr >= MaxF0
    ensures NumFrames(|y|, sr) < MinFrames ==> JitterShimmerHnr(lib, y, sr) == Insufficient
    ensures JitterShimmerHnr(lib, y, sr).Measured? ==>
      var m := JitterShimmerHnr(lib, y, sr);
      && NumFrames(|y|, sr) >= MinFrames
      && |VoicedTrack(lib, y, sr).f0s| >= MinVoicedFrames
      && m.jitterLocal >= 0.0 && m.shimmerLocal >= 0.0 && m.f0Mean > MinF0 as real
  {
    if NumFrames(|y|, sr) >= MinFrames {
      var t := VoicedTrack(lib, y, sr);
      if |t.f0s| >= MinVoicedFrames {
        CollectBounds(FramePitches(lib, y, sr), FramePeaks(y, sr));
        MeanAboveFloor(t.f0s, MinF0 as real);
      }
    }
  }

  lemma {:induction false} MeanAboveFloor(s: seq<real>, lo: real)
    requires |s| > 0
    requires forall i :: 0 <= i < |s| ==> s[i] > lo
    ensures Mean(s) > lo
  {
    SumAbove(s, lo);
  }

  lemma {:induction false} SumAbove(s: seq<real>, lo: real)
    requires |s| > 0
    requires forall i :: 0 <= i < |s| ==> s[i] > lo
    ensures Sum(s) > |s| as real * lo
  {
    if |s| > 1 {
      SumAbove(s[..|s| - 1], lo);
    } else {
      assert s[..0] == [];
    }
  }

  /** A steady voice (the same pitch in every voiced frame) has zero jitter. */
  lemma SteadyPitchHasNoJitter(f0s: seq<real>)
    requires |f0s| > 1
    requires forall i :: 0 <= i < |f0s| ==> f0s[i] == f0s[0] && f0s[0] >= 0.0
    ensures RelativeMeanAbsDiff(Periods(f0s)) == 0.0
  {
    RelativeMeanAbsDiffOfConstant(Periods(f0s));
  }

  /** One frame of the loop: the pitch of the Hann-windowed frame and the frame's peak
      amplitude. */
  method MeasureFrame(lib: Numerics, y: seq<real>, sr: nat, i: nat) returns (pitch: Pitch, peak: real)
    requires Lawful(lib) && sr >= MaxF0 && i < NumFrames(|y|, sr)
    ensures pitch == FramePitch(lib, y, sr, i) && peak == MaxAbs(Frame(y, sr, i))
  {
    FrameInBounds(|y|, sr, i);
    var start := i * HopLen(sr);
    var frame := y[start..start + FrameLen(sr)];
    assert frame == Frame(y, sr, i);
    pitch := ExtractPitch(Times(frame, lib.hanning(|frame|)), sr);
    peak := MaxAbs(frame);
  }

  /** Extending the frames by one appends that frame's f0 and peak when it is voiced. */
  lemma CollectStep(pitches: seq<Pitch>, amps: seq<real>, i: nat)
    requires |pitches| == |amps| && i < |pitches|
    ensures var t := Collect(pitches[..i], amps[..i]);
      Collect(pitches[..i + 1], amps[..i + 1])
        == if pitches[i].voiced then Track(t.f0s + [pitches[i].f0], t.peaks + [amps[i]]) else t
  {
    assert pitches[..i + 1][..i] == pitches[..i] && amps[..i + 1][..i] == amps[..i];
  }

  /** The frame loop: pitch-track every frame, collecting the voiced frames' f0 and peak
      amplitude in frame order. */
  method TrackFrames(lib: Numerics, y: seq<real>, sr: nat, numFrames: nat) returns (f0s: seq<real>, peaks: seq<real>)
    requires Lawful(lib) && sr >= MaxF0 && numFrames == NumFrames(|y|, sr)
    ensures Track(f0s, peaks) == VoicedTrack(lib, y, sr)
  {
    f0s, peaks := [], [];
    ghost var pitches, amps := FramePitches(lib, y, sr), FramePeaks(y, sr);
    for i := 0 to numFrames
      invariant Track(f0s, peaks) == Collect(pitches[..i], amps[..i])
    {
      var pitch, peak := MeasureFrame(lib, y, sr, i);
      CollectStep(pitches, amps, i);
      if pitch.voiced {
        f0s := f0s + [pitch.f0];
        peaks := peaks + [peak];
      }
    }
    assert pitches[..numFrames] == pitches && amps[..numFrames] == amps;
  }

  /** The extraction: too few frames give the all-zero result; otherwise the voiced track
      is reduced to jitter, shimmer, HNR and mean f0. */
  method ExtractJitterShimmerHnr(lib: Numerics, y: seq<real>, sr: nat) returns (r: VoiceMeasures)
    requires Lawful(lib) && sr >= MaxF0
    ensures r == JitterShimmerHnr(lib, y, sr)
  {
    var numFrames := (|y| - FrameLen(sr)) / HopLen(sr);
    if numFrames < MinFrames {
      return Insufficient;
    }
    var f0s, peaks := TrackFrames(lib, y, sr, numFrames);
    CollectBounds(FramePitches(lib, y, sr), FramePeaks(y, sr));
    r := Summarise(Track(f0s, peaks), y, sr);
  }
}
