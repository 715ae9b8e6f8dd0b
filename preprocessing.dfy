/** Layer 3 of the pipeline: the audio preprocessor. Decoded PCM is scaled to floating
    point, mixed down to mono, peak-normalised, trimmed of leading and trailing silence,
    resampled to 16 kHz and finally scaled to a -3 dBFS peak. The decoder's outcome is an
    input; every failure on the way ends in the same fallback of one second of silence. */
module Preprocessing {
  import opened Signal

  const TargetRate: nat := 16000
  /** 10 ** (-3.0 / 20) as the interpreter evaluates it: the -3 dBFS target peak. */
  const TargetAmp: real := 0.7079457843841379
  const FrameLength: nat := 2048
  /** 20·log10(e) > -60 is e > 10^-3: the trim threshold (top_db = 60) as an amplitude ratio. */
  const ThresholdRatio: real := 0.001
  const Epsilon: real := 0.000000001

  /** What numpy reports as the sample dtype's kind: signed integer of some width, floating
      point, or anything else (8-bit WAV data is unsigned). */
  datatype SampleKind = SignedInt(bits: nat) | FloatingPoint | OtherKind

  /** The decoder's output: rate, dtype kind, channel count and the frames (one row of
      `channels` samples each; a single-channel file is a one-column table). */
  datatype WavData = WavData(rate: nat, kind: SampleKind, channels: nat, frames: seq<seq<real>>)

  datatype AuditValue = Word(text: string) | Amount(x: real) | Hertz(hz: nat)

  /** The keys the preprocessor writes into its audit dictionary. */
  datatype AuditKey = TrimSkipped | TrimStatus | TrimRemovedSec | ResampleRate | NormalizationGain | Status | Reason

  function KeyName(k: AuditKey): string {
    match k
    case TrimSkipped => "trim_skipped"
    case TrimStatus => "trim_status"
    case TrimRemovedSec => "trim_removed_sec"
    case ResampleRate => "resample_rate"
    case NormalizationGain => "normalization_gain"
    case Status => "status"
    case Reason => "reason"
  }

  type Audit = map<AuditKey, AuditValue>

  /** 2^n. */
  function Pow2(n: nat): (p: nat)
    ensures p >= 1
  {
    if n == 0 then 1 else 2 * Pow2(n - 1)
  }

  /** What wavfile.read guarantees about its output: rectangular frames with at least one
      channel, and integer samples within the range of their type. */
  ghost predicate WellFormed(d: WavData) {
    && d.channels >= 1
    && (d.kind.SignedInt? ==> d.kind.bits >= 1)
    && forall i :: 0 <= i < |d.frames| ==>
         && |d.frames[i]| == d.channels
         && forall c :: 0 <= c < d.channels ==> InTypeRange(d.kind, d.frames[i][c])
  }

  predicate InTypeRange(kind: SampleKind, x: real) {
    match kind
    case SignedInt(bits) => bits >= 1 && -(Pow2(bits - 1) as real) <= x <= (Pow2(bits - 1) - 1) as real
    case FloatingPoint => true
    case OtherKind => 0.0 <= x <= 255.0
  }

  /** max(|iinfo.min|, |iinfo.max|) for a signed integer type of the given width. */
  function IntTypeScale(bits: nat): (s: nat)
    requires bits >= 1
    ensures s == Pow2(bits - 1)
  {
    var lo: int := -(Pow2(bits - 1) as int);
    var hi: int := Pow2(bits - 1) - 1;
    Larger(AbsInt(lo), AbsInt(hi))
  }

  function AbsInt(x: int): nat {
    if x < 0 then -x else x
  }

  function Larger(a: nat, b: nat): (m: nat)
    ensures m >= a && m >= b && (m == a || m == b)
  {
    if a >= b then a else b
  }

  /** One sample converted to float according to the dtype kind. */
  function SampleToFloat(kind: SampleKind, x: real): (r: real)
    requires kind.SignedInt? ==> kind.bits >= 1
    ensures kind.FloatingPoint? ==> r == x
  {
    match kind
    case SignedInt(bits) => x / IntTypeScale(bits) as real
    case FloatingPoint => x
    case OtherKind => (x - 128.0) / 128.0
  }

  /** Integer PCM lands in [-1, 1]; unsigned bytes land in [-1, 127/128]. */
  lemma SampleToFloatRange(kind: SampleKind, x: real)
    requires InTypeRange(kind, x)
    ensures kind.SignedInt? ==> -1.0 <= SampleToFloat(kind, x) <= 1.0
    ensures kind.OtherKind? ==> -1.0 <= SampleToFloat(kind, x) <= 127.0 / 128.0
  {
    if kind.SignedInt? {
      var p := Pow2(kind.bits - 1) as real;
      assert p >= 1.0;
      assert -p <= x <= p;
      DividedWithinUnit(x, p);
    }
  }

  lemma DividedWithinUnit(x: real, p: real)
    requires p > 0.0 && -p <= x <= p
    ensures -1.0 <= x / p <= 1.0
  {
  }

  function ToFloat(kind: SampleKind, frames: seq<seq<real>>): (r: seq<seq<real>>)
    requires kind.SignedInt? ==> kind.bits >= 1
    ensures |r| == |frames|
    ensures forall i :: 0 <= i < |frames| ==>
      |r[i]| == |frames[i]| && forall c :: 0 <= c < |frames[i]| ==> r[i][c] == SampleToFloat(kind, frames[i][c])
  {
    seq(|frames|, i requires 0 <= i < |frames| =>
      seq(|frames[i]|, c requires 0 <= c < |frames[i]| => SampleToFloat(kind, frames[i][c])))
  }

  /** Scaled integer PCM lies in [-1, 1] sample by sample. */
  lemma ToFloatInUnitRange(d: WavData)
    requires WellFormed(d) && d.kind.SignedInt?
    ensures var f := ToFloat(d.kind, d.frames);
      forall i, c :: 0 <= i < |f| && 0 <= c < |f[i]| ==> -1.0 <= f[i][c] <= 1.0
  {
    var f := ToFloat(d.kind, d.frames);
    forall i, c | 0 <= i < |f| && 0 <= c < |f[i]| ensures -1.0 <= f[i][c] <= 1.0 {
      SampleToFloatRange(d.kind, d.frames[i][c]);
    }
  }

  /** Mono mixdown: the mean over channels when there is more than one, else the only
      column. Either way each output sample is the mean of its frame. */
  function Mixdown(channels: nat, frames: seq<seq<real>>): (y: seq<real>)
    requires channels >= 1
    requires forall i :: 0 <= i < |frames| ==> |frames[i]| == channels
    ensures |y| == |frames|
    ensures forall i :: 0 <= i < |frames| ==> y[i] == Mean(frames[i])
  {
    if channels > 1 then seq(|frames|, i requires 0 <= i < |frames| => Mean(frames[i]))
    else
      var y := seq(|frames|, i requires 0 <= i < |frames| => frames[i][0]);
      assert forall i :: 0 <= i < |frames| ==> y[i] == Mean(frames[i]) by {
        forall i | 0 <= i < |frames| ensures y[i] == Mean(frames[i]) {
          SingletonMean(frames[i]);
        }
      }
      y
  }

  lemma SingletonMean(f: seq<real>)
    requires |f| == 1
    ensures Mean(f) == f[0]
  {
    assert f[..0] == [];
    assert Sum(f) == Sum(f[..0]) + f[0];
  }

  /** Mixing down values that lie in [lo, hi] keeps them in [lo, hi]. */
  lemma MixdownBounds(channels: nat, frames: seq<seq<real>>, lo: real, hi: real)
    requires channels >= 1
    requires forall i :: 0 <= i < |frames| ==> |frames[i]| == channels
    requires forall i, c :: 0 <= i < |frames| && 0 <= c < |frames[i]| ==> lo <= frames[i][c] <= hi
    ensures forall i :: 0 <= i < |frames| ==> lo <= Mixdown(channels, frames)[i] <= hi
  {
    forall i | 0 <= i < |frames| ensures lo <= Mixdown(channels, frames)[i] <= hi {
      MeanBounds(frames[i], lo, hi);
    }
  }

  /** The decoded file as a mono float signal. */
  function MonoSignal(d: WavData): (y: seq<real>)
    requires WellFormed(d)
    ensures |y| == |d.frames|
  {
    Mixdown(d.channels, ToFloat(d.kind, d.frames))
  }

  /** The first peak pass: divide by the peak when it is positive. */
  function PeakNormalise(y: seq<real>): (r: seq<real>)
    requires |y| > 0
    ensures |r| == |y|
    ensures MaxAbs(y) > 0.0 ==> MaxAbs(r) == 1.0
    ensures MaxAbs(y) == 0.0 ==> r == y && r == Zeros(|y|)
  {
    var m := MaxAbs(y);
    if m > 0.0 then
      MaxAbsNormalised(y, m);
      Scale(y, 1.0 / m)
    else
      ZeroPeakIsSilence(y);
      y
  }

  /** The smoothed RMS envelope: sqrt of the 2048-sample moving average of y². */
  function Envelope(lib: Numerics, y: seq<real>): (env: seq<real>)
    requires Lawful(lib) && |y| >= FrameLength
    ensures |env| == |y|
  {
    var mse := lib.boxSmooth(Squares(y), FrameLength);
    seq(|mse|, i requires 0 <= i < |mse| => lib.sqrt(mse[i]))
  }

  /** The mask 20·log10(env/ref + 1e-9) > -60, written without the logarithm. */
  function Mask(env: seq<real>, ref: real): (mask: seq<bool>)
    requires ref > 0.0
    ensures |mask| == |env|
    ensures forall i :: 0 <= i < |env| ==> (mask[i] <==> env[i] / ref + Epsilon > ThresholdRatio)
  {
    seq(|env|, i requires 0 <= i < |env| => env[i] / ref + Epsilon > ThresholdRatio)
  }

  /** np.flatnonzero: the indices of the true entries, in increasing order. */
  function FlatNonzero(mask: seq<bool>): (idx: seq<nat>)
    ensures forall j :: 0 <= j < |idx| ==> idx[j] < |mask| && mask[idx[j]]
    ensures forall j, k :: 0 <= j < k < |idx| ==> idx[j] < idx[k]
    ensures forall i :: 0 <= i < |mask| && mask[i] ==> i in idx
  {
    if |mask| == 0 then []
    else
      var last := |mask| - 1;
      var front := FlatNonzero(mask[..last]);
      assert forall i :: 0 <= i < last ==> mask[..last][i] == mask[i];
      if mask[last] then
        var idx := front + [last];
        assert forall j :: 0 <= j < |front| ==> idx[j] == front[j];
        idx
      else front
  }

  /** Nothing before the first index or after the last one is set. */
  lemma FlatNonzeroEnds(mask: seq<bool>)
    ensures var idx := FlatNonzero(mask);
      && (|idx| == 0 ==> forall i :: 0 <= i < |mask| ==> !mask[i])
      && (|idx| > 0 ==> forall i :: 0 <= i < idx[0] ==> !mask[i])
      && (|idx| > 0 ==> forall i :: idx[|idx| - 1] < i < |mask| ==> !mask[i])
  {
    var idx := FlatNonzero(mask);
    forall i | 0 <= i < |mask| && mask[i] ensures |idx| > 0 && idx[0] <= i <= idx[|idx| - 1] {
      assert i in idx;
      var j :| 0 <= j < |idx| && idx[j] == i;
      if j > 0 { assert idx[0] < idx[j]; }
      if j < |idx| - 1 { assert idx[j] < idx[|idx| - 1]; }
    }
  }

  /** How the trim ends: input too short, silent envelope, nothing above the threshold, or
      the span from the first to the last above-threshold index. */
  datatype TrimOutcome = TooShort | SilentRef | AllSilence | Span(start: nat, end: nat)

  function TrimDecision(lib: Numerics, y: seq<real>): (o: TrimOutcome)
    requires Lawful(lib)
    ensures o.Span? ==> o.start <= o.end < |y|
  {
    if |y| < FrameLength then TooShort
    else
      var env := Envelope(lib, y);
      var ref := Max(env);
      if ref <= 0.0 then SilentRef
      else
        var active := FlatNonzero(Mask(env, ref));
        if |active| == 0 then AllSilence
        else
          assert active[0] <= active[|active| - 1] by {
            if |active| > 1 { assert active[0] < active[|active| - 1]; }
          }
          Span(active[0], active[|active| - 1])
  }

  datatype Trimmed = Trimmed(samples: seq<real>, log: Audit)

  /** The numpy re-implementation of silence trimming with top_db = 60: the slice
      y[start:end] (end exclusive) and the log entry it contributes to the audit. */
  function TrimSilence(lib: Numerics, y: seq<real>): (t: Trimmed)
    requires Lawful(lib)
    ensures |t.samples| <= |y|
    ensures Status !in t.log && Reason !in t.log && ResampleRate !in t.log && NormalizationGain !in t.log
    ensures TrimStatus in t.log ==> t.log[TrimStatus] != Word("reverted_to_original")
  {
    match TrimDecision(lib, y)
    case TooShort => Trimmed(y, map[TrimSkipped := Word("too_short")])
    case SilentRef => Trimmed(y, map[TrimStatus := Word("silent_ref")])
    case AllSilence => Trimmed([], map[TrimStatus := Word("all_silence")])
    case Span(start, end) =>
      Trimmed(y[start..end], map[TrimRemovedSec := Amount((|y| - (end - start)) as real / 16000.0)])
  }

  /** Short signals and signals with a silent envelope pass through unchanged. */
  lemma TrimKeepsShortOrSilent(lib: Numerics, y: seq<real>)
    requires Lawful(lib)
    requires |y| < FrameLength || Max(Envelope(lib, y)) <= 0.0
    ensures TrimSilence(lib, y).samples == y
  {
  }

  lemma SelfRatio(x: real)
    requires x > 0.0
    ensures x / x + Epsilon > ThresholdRatio
  {
  }

  /** With a positive envelope peak, the index of that peak is above the threshold. */
  lemma {:induction false} PeakIndexIsActive(env: seq<real>, ref: real)
    requires |env| > 0 && ref == Max(env) && ref > 0.0
    ensures |FlatNonzero(Mask(env, ref))| > 0
  {
    var k :| 0 <= k < |env| && env[k] == ref;
    var mask := Mask(env, ref);
    SelfRatio(env[k]);
    assert mask[k];
    var idx := FlatNonzero(mask);
    assert k in idx;
  }

  /** Hence the "all_silence" outcome can never occur. */
  lemma AllSilenceUnreachable(lib: Numerics, y: seq<real>)
    requires Lawful(lib)
    ensures TrimDecision(lib, y) != AllSilence
  {
    if |y| >= FrameLength {
      var env := Envelope(lib, y);
      if Max(env) > 0.0 {
        PeakIndexIsActive(env, Max(env));
      }
    }
  }

  /** Otherwise the result is y[start:end] between the first and the last above-threshold
      indices, end exclusive: nothing outside the span is above the threshold, and the
      result is strictly shorter than the input. It is empty exactly when one index is
      active. */
  lemma {:induction false} TrimIsSpan(lib: Numerics, y: seq<real>)
    requires Lawful(lib) && |y| >= FrameLength
    requires Max(Envelope(lib, y)) > 0.0
    ensures TrimDecision(lib, y).Span?
    ensures var o := TrimDecision(lib, y);
      var env := Envelope(lib, y);
      var mask := Mask(env, Max(env));
      && mask[o.start] && mask[o.end]
      && (forall i :: 0 <= i < o.start ==> !mask[i])
      && (forall i :: o.end < i < |y| ==> !mask[i])
      && TrimSilence(lib, y).samples == y[o.start..o.end]
      && |TrimSilence(lib, y).samples| < |y|
      && (|TrimSilence(lib, y).samples| == 0 <==> (forall i :: 0 <= i < |y| && mask[i] ==> i == o.start))
  {
    var env := Envelope(lib, y);
    var ref := Max(env);
    PeakIndexIsActive(env, ref);
    FlatNonzeroEnds(Mask(env, ref));
    var active := FlatNonzero(Mask(env, ref));
    if |active| > 1 { assert active[0] < active[|active| - 1]; }
  }

  /** The signal kept after trimming: the trimmed span, or the untrimmed signal when the
      trim removed everything. A non-empty input never yields an empty output. */
  function KeptSignal(lib: Numerics, y: seq<real>): (kept: seq<real>)
    requires Lawful(lib)
    ensures |y| > 0 ==> |kept| > 0
    ensures kept == y || kept == TrimSilence(lib, y).samples
  {
    var t := TrimSilence(lib, y);
    if |t.samples| == 0 then y else t.samples
  }

  /** int(len · 16000 / src_sr) for a positive source rate. */
  function ResampleLength(len: nat, srcRate: nat): (n: nat)
    requires srcRate > 0
    ensures n as real <= len as real * TargetRate as real / srcRate as real < (n + 1) as real
  {
    var n := len * TargetRate / srcRate;
    FloorDivision(len * TargetRate, srcRate, n);
    n
  }

  lemma FloorDivision(a: nat, b: nat, n: nat)
    requires b > 0 && n == a / b
    ensures n as real <= a as real / b as real < (n + 1) as real
  {
    var q, br := a as real / b as real, b as real;
    assert q * br == a as real by {
      QuotientTimes(a as real, br, q);
    }
    assert n as real * br <= q * br by {
      assert n * b <= a;
      CastProduct(n, b);
    }
    assert q * br < (n + 1) as real * br by {
      assert a < (n + 1) * b;
      CastProduct(n + 1, b);
    }
    CancelFactor(n as real, q, br);
    CancelFactorStrict(q, (n + 1) as real, br);
  }

  lemma CastProduct(x: nat, y: nat)
    ensures (x * y) as real == x as real * y as real
  {
  }

  lemma CancelFactor(x: real, y: real, d: real)
    requires d > 0.0 && x * d <= y * d
    ensures x <= y
  {
    assert (y - x) * d == y * d - x * d;
  }

  lemma CancelFactorStrict(x: real, y: real, d: real)
    requires d > 0.0 && x * d < y * d
    ensures x < y
  {
    assert (y - x) * d == y * d - x * d;
  }

  /** numpy's message for np.max of an empty array. */
  const EmptyMaxError: string := "zero-size array to reduction operation maximum which has no identity"
  const ZeroDivisionError: string := "division by zero"

  /** The signal that reaches the final gain stage, or the text of the exception raised
      before it. */
  function BeforeGain(lib: Numerics, decoded: Result<WavData>): (r: Result<seq<real>>)
    requires Lawful(lib)
    requires decoded.Ok? ==> WellFormed(decoded.value)
    ensures r.Ok? ==> |r.value| > 0
    ensures decoded.Err? ==> r == Err(decoded.error)
  {
    match decoded
    case Err(e) => Err(e)
    case Ok(d) =>
      var mono := MonoSignal(d);
      if |mono| == 0 then Err(EmptyMaxError)
      else
        var kept := KeptSignal(lib, PeakNormalise(mono));
        if d.rate == TargetRate then Ok(kept)
        else if d.rate == 0 then Err(ZeroDivisionError)
        else
          var resampled := lib.resample(kept, ResampleLength(|kept|, d.rate));
          if |resampled| == 0 then Err(EmptyMaxError) else Ok(resampled)
  }

  /** A file at 16 kHz is never resampled; any other positive rate is resampled to
      floor(len · 16000 / rate) samples, and a rate of zero fails. */
  lemma ResampledOnlyOffTarget(lib: Numerics, d: WavData)
    requires Lawful(lib) && WellFormed(d) && |d.frames| > 0
    ensures var kept := KeptSignal(lib, PeakNormalise(MonoSignal(d)));
      && (d.rate == TargetRate ==> BeforeGain(lib, Ok(d)) == Ok(kept))
      && (d.rate == 0 ==> BeforeGain(lib, Ok(d)) == Err(ZeroDivisionError))
      && (d.rate != TargetRate && BeforeGain(lib, Ok(d)).Ok? ==>
            d.rate > 0 && |BeforeGain(lib, Ok(d)).value| == ResampleLength(|kept|, d.rate))
  {
  }

  function FallbackAudit(reason: string): Audit {
    map[Status := Word("error"), Reason := Word(reason)]
  }

  /** Trim, then revert to the untrimmed signal when the trim removed everything. */
  method TrimStage(lib: Numerics, yNorm: seq<real>, audit0: Audit) returns (yTrimmed: seq<real>, audit: Audit)
    requires Lawful(lib)
    ensures yTrimmed == KeptSignal(lib, yNorm)
    ensures var t := TrimSilence(lib, yNorm);
      audit == if |t.samples| == 0 then (audit0 + t.log)[TrimStatus := Word("reverted_to_original")]
               else audit0 + t.log
  {
    var trim := TrimSilence(lib, yNorm);
    audit := audit0 + trim.log;
    yTrimmed := trim.samples;
    if |yTrimmed| == 0 {
      yTrimmed := yNorm;
      audit := audit[TrimStatus := Word("reverted_to_original")];
    }
  }

  /** Scale to the -3 dBFS target peak; an all-zero signal is left as it is with gain 1. */
  method FinalGain(yResampled: seq<real>) returns (y: seq<real>, gain: real)
    requires |yResampled| > 0
    ensures MaxAbs(yResampled) > 0.0 ==>
      gain == TargetAmp / MaxAbs(yResampled) && y == Scale(yResampled, gain) && MaxAbs(y) == TargetAmp
    ensures MaxAbs(yResampled) == 0.0 ==> gain == 1.0 && y == yResampled
  {
    var currentMax := MaxAbs(yResampled);
    if currentMax > 0.0 {
      gain := TargetAmp / currentMax;
      y := Scale(yResampled, gain);
      MaxAbsToTarget(yResampled, TargetAmp, currentMax);
    } else {
      y, gain := yResampled, 1.0;
    }
  }

  /** The audit entries written up to the trim: the trim's log, with the status overwritten
      by the revert marker when the trim removed everything. */
  function TrimEntries(t: Trimmed): Audit {
    if |t.samples| == 0 then t.log[TrimStatus := Word("reverted_to_original")] else t.log
  }

  /** Merged into the still empty audit, the trim's entries are the audit. */
  lemma MergedIntoEmpty(t: Trimmed)
    ensures TrimEntries(t) ==
      if |t.samples| == 0 then (map[] + t.log)[TrimStatus := Word("reverted_to_original")] else map[] + t.log
  {
    assert map[] + t.log == t.log;
  }

  /** The gain of the final stage: to the target peak, or 1 for an all-zero signal. */
  function Gain(r: seq<real>): real
    requires |r| > 0
  {
    if MaxAbs(r) > 0.0 then TargetAmp / MaxAbs(r) else 1.0
  }

  /** The audit process returns: after a raised exception the fallback audit, otherwise the
      trim entries, the output rate and the final gain. */
  function AuditOf(lib: Numerics, decoded: Result<WavData>): Audit
    requires Lawful(lib)
    requires decoded.Ok? ==> WellFormed(decoded.value)
  {
    match BeforeGain(lib, decoded)
    case Err(e) => FallbackAudit(e)
    case Ok(r) =>
      TrimEntries(TrimSilence(lib, PeakNormalise(MonoSignal(decoded.value))))[ResampleRate := Hertz(TargetRate)][NormalizationGain := Amount(Gain(r))]
  }

  /** A successful attempt's audit over the trim outcome t: exactly the trim log's keys,
      resample_rate and normalization_gain, plus trim_status when the trim removed
      everything; the trim log's entries kept, except that the revert marker replaces the
      trim status, so the marker is present exactly when the trim was reverted; the rate
      16 kHz and the given gain; no status and no reason. */
  predicate RecordsTrim(a: Audit, t: Trimmed, gain: real) {
    && a.Keys == t.log.Keys + {ResampleRate, NormalizationGain} + (if |t.samples| == 0 then {TrimStatus} else {})
    && Status !in a && Reason !in a
    && (forall k :: k in t.log && k != TrimStatus ==> k in a && a[k] == t.log[k])
    && (TrimStatus in a ==> a[TrimStatus] == if |t.samples| == 0 then Word("reverted_to_original") else t.log[TrimStatus])
    && ResampleRate in a && a[ResampleRate] == Hertz(TargetRate)
    && NormalizationGain in a && a[NormalizationGain] == Amount(gain)
    && ((TrimStatus in a && a[TrimStatus] == Word("reverted_to_original")) <==> |t.samples| == 0)
  }

  lemma TrimAuditRecorded(lib: Numerics, yNorm: seq<real>, gain: real)
    requires Lawful(lib)
    ensures RecordsTrim(TrimEntries(TrimSilence(lib, yNorm))[ResampleRate := Hertz(TargetRate)][NormalizationGain := Amount(gain)],
                        TrimSilence(lib, yNorm), gain)
  {
  }

  /** What the returned audit holds: a failed attempt reports only its status and reason; a
      successful one records the trim, the 16 kHz rate and the gain applied to the output. */
  lemma AuditEntries(lib: Numerics, decoded: Result<WavData>)
    requires Lawful(lib)
    requires decoded.Ok? ==> WellFormed(decoded.value)
    ensures BeforeGain(lib, decoded).Err? ==>
      AuditOf(lib, decoded) == map[Status := Word("error"), Reason := Word(BeforeGain(lib, decoded).error)]
    ensures BeforeGain(lib, decoded).Ok? ==>
      RecordsTrim(AuditOf(lib, decoded), TrimSilence(lib, PeakNormalise(MonoSignal(decoded.value))),
                  Gain(BeforeGain(lib, decoded).value))
  {
    if BeforeGain(lib, decoded).Ok? {
      TrimAuditRecorded(lib, PeakNormalise(MonoSignal(decoded.value)), Gain(BeforeGain(lib, decoded).value));
    }
  }

  /** The stages up to and including resampling, writing the trim and resample entries of
      the audit; an Err result is the exception that ends the attempt. */
  method Prepare(lib: Numerics, d: WavData) returns (r: Result<seq<real>>, audit: Audit)
    requires Lawful(lib) && WellFormed(d)
    ensures r == BeforeGain(lib, Ok(d))
    ensures r.Ok? ==> audit == TrimEntries(TrimSilence(lib, PeakNormalise(MonoSignal(d))))[ResampleRate := Hertz(TargetRate)]
  {
    audit := map[];
    var yFloat := ToFloat(d.kind, d.frames);
    var yMono := Mixdown(d.channels, yFloat);
    if |yMono| == 0 {
      return Err(EmptyMaxError), audit;
    }
    var yNorm := PeakNormalise(yMono);
    var yTrimmed;
    yTrimmed, audit := TrimStage(lib, yNorm, audit);
    MergedIntoEmpty(TrimSilence(lib, yNorm));
    var yResampled;
    if d.rate != TargetRate {
      if d.rate == 0 {
        return Err(ZeroDivisionError), audit;
      }
      var numSamples := ResampleLength(|yTrimmed|, d.rate);
      yResampled := lib.resample(yTrimmed, numSamples);
      audit := audit[ResampleRate := Hertz(TargetRate)];
    } else {
      yResampled := yTrimmed;
      audit := audit[ResampleRate := Hertz(d.rate)];
    }
    if |yResampled| == 0 {
      return Err(EmptyMaxError), audit;
    }
    r := Ok(yResampled);
  }

  /** The samples process returns: the signal before the gain, scaled to the target peak
      when it is not silent, or one second of silence when an exception was raised. */
  function Preprocessed(lib: Numerics, decoded: Result<WavData>): (y: seq<real>)
    requires Lawful(lib)
    requires decoded.Ok? ==> WellFormed(decoded.value)
    ensures |y| > 0
  {
    match BeforeGain(lib, decoded)
    case Err(_) => Zeros(16000)
    case Ok(r) => if MaxAbs(r) > 0.0 then Scale(r, TargetAmp / MaxAbs(r)) else r
  }

  /** Load, scale, mix down, normalise, trim, resample and scale to the target peak; the
      audit records what each stage did. Any failure returns 16000 zeros at 16 kHz. */
  method Process(lib: Numerics, decoded: Result<WavData>) returns (y: seq<real>, rate: nat, audit: Audit)
    requires Lawful(lib)
    requires decoded.Ok? ==> WellFormed(decoded.value)
    ensures rate == TargetRate && |y| > 0 && y == Preprocessed(lib, decoded)
    ensures audit == AuditOf(lib, decoded)
    ensures BeforeGain(lib, decoded).Err? ==> y == Zeros(16000)
    ensures BeforeGain(lib, decoded).Ok? ==>
              var r := BeforeGain(lib, decoded).value;
              && (MaxAbs(r) > 0.0 ==> y == Scale(r, TargetAmp / MaxAbs(r)) && MaxAbs(y) == TargetAmp)
              && (MaxAbs(r) == 0.0 ==> y == r)
  {
    rate := TargetRate;
    if decoded.Err? {
      y, audit := Zeros(16000), FallbackAudit(decoded.error);
      return;
    }
    var resampled;
    resampled, audit := Prepare(lib, decoded.value);
    if resampled.Err? {
      y, audit := Zeros(16000), FallbackAudit(resampled.error);
      return;
    }
    var gain;
    y, gain := FinalGain(resampled.value);
    audit := audit[NormalizationGain := Amount(gain)];
  }
}
