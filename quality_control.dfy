/** Layer 2 of the pipeline: the signal quality gate. Three checks (duration, clipping,
    level) are all evaluated in turn; each failing check flips the verdict and appends one
    reason, so the report itemises every defect found. */
module QualityControl {
  import opened Signal

  const MinDuration: real := 0.5
  const MaxClippingRatio: real := 0.05
  const MinRms: real := 0.005
  /** Samples at or beyond this magnitude count as clipped. */
  const ClipLevel: real := 0.99

  /** A floating-point metric: a number, or NaN (what numpy yields for 0/0 and the mean of
      an empty array). Every ordered comparison with NaN is false. */
  datatype Metric = Num(x: real) | NaN

  predicate Below(m: Metric, t: real) {
    m.Num? && m.x < t
  }

  predicate Above(m: Metric, t: real) {
    m.Num? && m.x > t
  }

  /** A rejection reason; its text is "Duration too short (…s < 0.5s)", "Excessively
      Clipped (…%)" or "Signal Level too low (Silence/Near-Silence)". */
  datatype Reason = TooShort(duration: real) | Clipped(ratio: Metric) | TooQuiet

  function ReasonRank(r: Reason): nat {
    match r
    case TooShort(_) => 0
    case Clipped(_) => 1
    case TooQuiet => 2
  }

  /** Reasons appear in check order (duration, clipping, level), each at most once. */
  predicate InCheckOrder(reasons: seq<Reason>) {
    forall i, j :: 0 <= i < j < |reasons| ==> ReasonRank(reasons[i]) < ReasonRank(reasons[j])
  }

  /** The 'metrics' dictionary: duration, clipping_ratio and rms_energy. */
  datatype Metrics = Metrics(duration: real, clippingRatio: Metric, rmsEnergy: Metric)

  datatype QualityReport = QualityReport(passed: bool, metrics: Metrics, reasons: seq<Reason>)

  predicate IsClipped(x: real) {
    Abs(x) >= ClipLevel
  }

  /** np.sum(np.abs(y) >= 0.99). */
  function ClippedCount(y: seq<real>): (n: nat)
    ensures n <= |y|
    ensures (forall i :: 0 <= i < |y| ==> !IsClipped(y[i])) ==> n == 0
  {
    if |y| == 0 then 0
    else ClippedCount(y[..|y| - 1]) + (if IsClipped(y[|y| - 1]) then 1 else 0)
  }

  /** clipped / len(y): a fraction in [0, 1], and NaN for the empty signal. */
  function ClippingRatio(y: seq<real>): (m: Metric)
    ensures m.NaN? <==> |y| == 0
    ensures m.Num? ==> 0.0 <= m.x <= 1.0
  {
    if |y| == 0 then NaN
    else
      var c := ClippedCount(y);
      FractionInUnitRange(c, |y|);
      Num(c as real / |y| as real)
  }

  lemma FractionInUnitRange(c: nat, n: nat)
    requires c <= n && n > 0
    ensures 0.0 <= c as real / n as real <= 1.0
  {
  }

  /** sqrt(mean(y²)): non-negative, and NaN for the empty signal. */
  function RmsEnergy(lib: Numerics, y: seq<real>): (m: Metric)
    requires Lawful(lib)
    ensures m.NaN? <==> |y| == 0
    ensures m.Num? ==> m.x >= 0.0
  {
    if |y| == 0 then NaN
    else
      var ms := Mean(Squares(y));
      MeanSquareNonNegative(y);
      Num(lib.sqrt(ms))
  }

  /** The metrics of a signal at the given rate. */
  function Measure(lib: Numerics, y: seq<real>, sr: nat): Metrics
    requires Lawful(lib) && sr > 0
  {
    Metrics(|y| as real / sr as real, ClippingRatio(y), RmsEnergy(lib, y))
  }

  /** One check's contribution: its reason appended when it fails. */
  function AppendIf(reasons: seq<Reason>, failed: bool, reason: Reason): seq<Reason> {
    if failed then reasons + [reason] else reasons
  }

  /** The reasons the three checks report, in the order they run. */
  function Reasons(m: Metrics): seq<Reason> {
    var afterDuration := AppendIf([], m.duration < MinDuration, TooShort(m.duration));
    var afterClipping := AppendIf(afterDuration, Above(m.clippingRatio, MaxClippingRatio), Clipped(m.clippingRatio));
    AppendIf(afterClipping, Below(m.rmsEnergy, MinRms), TooQuiet)
  }

  /** Every check contributes its reason exactly when it fails, nothing else is reported,
      and the reasons keep check order with no repeats. */
  lemma ReasonsItemised(m: Metrics)
    ensures InCheckOrder(Reasons(m))
    ensures TooShort(m.duration) in Reasons(m) <==> m.duration < MinDuration
    ensures Clipped(m.clippingRatio) in Reasons(m) <==> Above(m.clippingRatio, MaxClippingRatio)
    ensures TooQuiet in Reasons(m) <==> Below(m.rmsEnergy, MinRms)
    ensures forall r :: r in Reasons(m) ==> r == TooShort(m.duration) || r == Clipped(m.clippingRatio) || r == TooQuiet
    ensures |Reasons(m)| <= 3
  {
  }

  /** Run the three checks in order, recording each metric and a reason for each failure. */
  method AssessQuality(lib: Numerics, y: seq<real>, sr: nat) returns (report: QualityReport)
    requires Lawful(lib) && sr > 0
    ensures report.metrics == Measure(lib, y, sr)
    ensures report.reasons == Reasons(report.metrics)
    ensures report.passed <==> |report.reasons| == 0
  {
    var reasons: seq<Reason> := [];
    var passed := true;

    var duration := |y| as real / sr as real;
    passed, reasons := Check(passed, reasons, duration < MinDuration, TooShort(duration));

    var clippingRatio := ClippingRatio(y);
    passed, reasons := Check(passed, reasons, Above(clippingRatio, MaxClippingRatio), Clipped(clippingRatio));

    var rms := RmsEnergy(lib, y);
    passed, reasons := Check(passed, reasons, Below(rms, MinRms), TooQuiet);

    report := QualityReport(passed, Metrics(duration, clippingRatio, rms), reasons);
  }

  /** One check: when it fails, the verdict is cleared and its reason appended. */
  method Check(passed0: bool, reasons0: seq<Reason>, failed: bool, reason: Reason)
    returns (passed: bool, reasons: seq<Reason>)
    ensures passed == (passed0 && !failed)
    ensures reasons == AppendIf(reasons0, failed, reason)
  {
    passed, reasons := passed0, reasons0;
    if failed {
      passed := false;
      reasons := reasons + [reason];
    }
  }

  /** The duration check fails exactly when the signal has fewer than sr/2 samples. */
  lemma DurationThreshold(n: nat, sr: nat)
    requires sr > 0
    ensures n as real / sr as real < MinDuration <==> 2 * n < sr
  {
    var d := n as real / sr as real;
    assert d * sr as real == n as real;
  }

  /** The positions of the samples at or beyond the clip level. */
  function ClippedIndices(y: seq<real>): set<int> {
    set i | 0 <= i < |y| && IsClipped(y[i])
  }

  /** np.sum(np.abs(y) >= 0.99) counts exactly the samples whose magnitude reaches 0.99,
      the level itself included. */
  lemma {:induction false} ClippedCountCountsClipped(y: seq<real>)
    ensures ClippedCount(y) == |ClippedIndices(y)|
  {
    if |y| == 0 {
      assert ClippedIndices(y) == {};
    } else {
      var init := y[..|y| - 1];
      ClippedCountCountsClipped(init);
      var last: set<int> := if IsClipped(y[|y| - 1]) then {|y| - 1} else {};
      assert ClippedIndices(y) == ClippedIndices(init) + last;
      assert ClippedIndices(init) !! last;
    }
  }

  /** A fully clipped signal counts every sample, and any clipped sample makes the count
      positive. */
  lemma {:induction false} ClippedCountExtremes(y: seq<real>)
    ensures (forall i :: 0 <= i < |y| ==> IsClipped(y[i])) ==> ClippedCount(y) == |y|
    ensures (exists i :: 0 <= i < |y| && IsClipped(y[i])) ==> ClippedCount(y) >= 1
  {
    if |y| > 0 {
      var init := y[..|y| - 1];
      ClippedCountExtremes(init);
      if exists i :: 0 <= i < |y| && IsClipped(y[i]) {
        var i :| 0 <= i < |y| && IsClipped(y[i]);
        if i < |y| - 1 {
          assert IsClipped(init[i]);
        }
      }
      if forall i :: 0 <= i < |y| ==> IsClipped(y[i]) {
        assert forall i :: 0 <= i < |init| ==> IsClipped(init[i]) by {
          forall i | 0 <= i < |init| ensures IsClipped(init[i]) {
            assert init[i] == y[i];
          }
        }
      }
    }
  }

  /** 0.99 and -0.99 are clipped, 0.98 is not. */
  lemma ClippedCountExample()
    ensures ClippedCount([0.99, -0.99, 0.98]) == 2
  {
    var y := [0.99, -0.99, 0.98];
    assert y[..2] == [0.99, -0.99] && y[..2][..1] == [0.99] && [0.99][..0] == [];
  }

  lemma {:induction false} ClippedCountOfZeros(n: nat)
    ensures ClippedCount(Zeros(n)) == 0
  {
    var z := Zeros(n);
    assert forall i :: 0 <= i < |z| ==> !IsClipped(z[i]);
  }

  lemma {:induction false} EnergyOfZeros(n: nat)
    ensures Sum(Squares(Zeros(n))) == 0.0
  {
    var sq := Squares(Zeros(n));
    assert forall i :: 0 <= i < |sq| ==> sq[i] == 0.0;
    SumOfConstant(sq, 0.0);
  }

  /** One second of silence at 16 kHz (the preprocessor's fallback) is long enough and
      unclipped, but fails the level check: the verdict is a rejection for that one reason. */
  lemma SilenceIsTooQuiet(lib: Numerics)
    requires Lawful(lib)
    ensures var y := Zeros(16000);
      && 16000 as real / 16000 as real >= MinDuration
      && ClippingRatio(y) == Num(0.0)
      && RmsEnergy(lib, y) == Num(0.0)
  {
    var y := Zeros(16000);
    ClippedCountOfZeros(16000);
    EnergyOfZeros(16000);
    assert Mean(Squares(y)) == 0.0;
  }
}
