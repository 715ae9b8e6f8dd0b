/** The orchestrator: validation, preprocessing, quality control and feature extraction in
    sequence, recording each stage's result in a report whose status moves from pending to
    exactly one of failed, rejected or success, and stopping at the first failing stage.
    What the file system reports, the decoded audio and the clock readings are inputs. */
module Pipeline {
  import opened Signal
  import Validation
  import Preprocessing
  import QualityControl
  import Features

  const Version: string := "1.0.0-medical"
  const ValidationPrefix: string := "Validation Error: "
  const QualityFailure: string := "Signal Quality Control Failed"
  const Unvoiced: string := "No valid voice detected (unvoiced)"

  datatype Status = Pending | Failed | Rejected | Success

  /** The keys of report['stages'], in the order the stages run. */
  datatype StageKey = ValidationKey | PreprocessingKey | QualityControlKey | FeatureExtractionKey

  function StageName(k: StageKey): string {
    match k
    case ValidationKey => "validation"
    case PreprocessingKey => "preprocessing"
    case QualityControlKey => "quality_control"
    case FeatureExtractionKey => "feature_extraction"
  }

  const AllStages: seq<StageKey> := [ValidationKey, PreprocessingKey, QualityControlKey, FeatureExtractionKey]

  /** One entry of report['stages'], holding what that stage returned. */
  datatype Stage =
    | ValidationStage(validation: Validation.Validation)
    | PreprocessingStage(audit: Preprocessing.Audit)
    | QualityControlStage(quality: QualityControl.QualityReport)
    | FeatureExtractionStage(features: map<Features.FeatureKey, Features.FeatureValue>)

  function KeyOf(s: Stage): StageKey {
    match s
    case ValidationStage(_) => ValidationKey
    case PreprocessingStage(_) => PreprocessingKey
    case QualityControlStage(_) => QualityControlKey
    case FeatureExtractionStage(_) => FeatureExtractionKey
  }

  function Keys(stages: seq<Stage>): (keys: seq<StageKey>)
    ensures |keys| == |stages| && forall i :: 0 <= i < |stages| ==> keys[i] == KeyOf(stages[i])
  {
    seq(|stages|, i requires 0 <= i < |stages| => KeyOf(stages[i]))
  }

  /** The report dictionary, updated stage by stage. */
  class Report {
    const pipelineVersion: string
    const timestamp: real
    var status: Status
    var stages: seq<Stage>
    var error: Option<string>
    var rejections: Option<seq<QualityControl.Reason>>
    var processingTime: Option<real>

    constructor(timestamp: real)
      ensures this.pipelineVersion == Version && this.timestamp == timestamp
      ensures status == Pending && stages == []
      ensures error == None && rejections == None && processingTime == None
    {
      this.pipelineVersion := Version;
      this.timestamp := timestamp;
      status := Pending;
      stages := [];
      error := None;
      rejections := None;
      processingTime := None;
    }
  }

  /** features.get("valid_voice_detected", False). */
  predicate VoiceDetected(f: map<Features.FeatureKey, Features.FeatureValue>) {
    Features.ValidVoiceDetected in f && f[Features.ValidVoiceDetected] == Features.Flag(true)
  }

  /** How a run ends: its status, the stages it reached, the error text and the QC
      rejections. */
  datatype Verdict = Verdict(
    status: Status,
    stages: seq<StageKey>,
    error: Option<string>,
    rejections: Option<seq<QualityControl.Reason>>)

  /** The samples the later stages see: what the preprocessor returns. */
  function Samples(lib: Numerics, decoded: Result<Preprocessing.WavData>): (y: seq<real>)
    requires Lawful(lib)
    requires decoded.Ok? ==> Preprocessing.WellFormed(decoded.value)
    ensures |y| > 0
  {
    Preprocessing.Preprocessed(lib, decoded)
  }

  /** The outcome of a run as a function of its inputs. */
  function Run(lib: Numerics, facts: Validation.FileFacts, decoded: Result<Preprocessing.WavData>): Verdict
    requires Lawful(lib)
    requires decoded.Ok? ==> Preprocessing.WellFormed(decoded.value)
  {
    var v := Validation.Validate(facts);
    if v.Invalid? then
      Verdict(Failed, [ValidationKey], Some(ValidationPrefix + Validation.ErrorText(v.error)), None)
    else Screen(lib, Samples(lib, decoded))
  }

  /** The outcome once the file is valid and preprocessed into y: the quality gate, then the
      voice check. */
  function Screen(lib: Numerics, y: seq<real>): Verdict
    requires Lawful(lib)
  {
    var reasons := QualityControl.Reasons(QualityControl.Measure(lib, y, Preprocessing.TargetRate));
    if |reasons| > 0 then
      Verdict(Rejected, AllStages[..3], Some(QualityFailure), Some(reasons))
    else if !VoiceDetected(Features.NumpyFeatures(lib, y, Preprocessing.TargetRate)) then
      Verdict(Rejected, AllStages, Some(Unvoiced), None)
    else
      Verdict(Success, AllStages, None, None)
  }

  /** A finished run: never pending; the stages reached are a non-empty prefix of
      validation, preprocessing, quality control, feature extraction; only a success carries
      no error, and a success reached every stage. */
  predicate Ended(r: Verdict) {
    && r.status != Pending
    && 1 <= |r.stages| <= 4 && r.stages == AllStages[..|r.stages|]
    && (r.error.None? <==> r.status == Success)
    && (r.status == Success ==> r.stages == AllStages)
  }

  /** Every run ends. */
  lemma RunTerminates(lib: Numerics, facts: Validation.FileFacts, decoded: Result<Preprocessing.WavData>)
    requires Lawful(lib)
    requires decoded.Ok? ==> Preprocessing.WellFormed(decoded.value)
    ensures Ended(Run(lib, facts, decoded))
  {
    if Validation.Validate(facts).Valid? {
      ScreenEnds(lib, Samples(lib, decoded));
    }
  }

  lemma ScreenEnds(lib: Numerics, y: seq<real>)
    requires Lawful(lib)
    ensures Ended(Screen(lib, y))
  {
  }

  /** The run fails exactly when validation rejects the file; the error carries the
      validator's message and only the validation stage is recorded. */
  lemma FailedExactlyOnInvalidInput(lib: Numerics, facts: Validation.FileFacts, decoded: Result<Preprocessing.WavData>)
    requires Lawful(lib)
    requires decoded.Ok? ==> Preprocessing.WellFormed(decoded.value)
    ensures var r, v := Run(lib, facts, decoded), Validation.Validate(facts);
      && (r.status == Failed <==> v.Invalid?)
      && (v.Invalid? ==> r.stages == [ValidationKey]
                         && r.error == Some(ValidationPrefix + Validation.ErrorText(v.error)))
  {
  }

  /** A quality failure rejects the file with the QC reasons as rejections, and feature
      extraction is never reached; only a QC rejection carries rejections. */
  lemma QualityFailureRejects(lib: Numerics, facts: Validation.FileFacts, decoded: Result<Preprocessing.WavData>)
    requires Lawful(lib)
    requires decoded.Ok? ==> Preprocessing.WellFormed(decoded.value)
    requires Validation.Validate(facts).Valid?
    ensures var r := Run(lib, facts, decoded);
      var reasons := QualityControl.Reasons(QualityControl.Measure(lib, Samples(lib, decoded), Preprocessing.TargetRate));
      && (|reasons| > 0 ==>
            r.status == Rejected && r.rejections == Some(reasons) && FeatureExtractionKey !in r.stages)
      && (r.rejections.Some? ==> |reasons| > 0)
  {
    QualityDecides(lib, Samples(lib, decoded));
  }

  lemma QualityDecides(lib: Numerics, y: seq<real>)
    requires Lawful(lib)
    ensures var r := Screen(lib, y);
      var reasons := QualityControl.Reasons(QualityControl.Measure(lib, y, Preprocessing.TargetRate));
      && (|reasons| > 0 ==>
            r.status == Rejected && r.rejections == Some(reasons) && FeatureExtractionKey !in r.stages)
      && (r.rejections.Some? ==> |reasons| > 0)
  {
  }

  /** A file that passes QC but has no detected voice is rejected as unvoiced, without
      rejections; with a detected voice the run succeeds. */
  lemma VoiceDecidesAfterQuality(lib: Numerics, facts: Validation.FileFacts, decoded: Result<Preprocessing.WavData>)
    requires Lawful(lib)
    requires decoded.Ok? ==> Preprocessing.WellFormed(decoded.value)
    requires Validation.Validate(facts).Valid?
    requires |QualityControl.Reasons(QualityControl.Measure(lib, Samples(lib, decoded), Preprocessing.TargetRate))| == 0
    ensures var r := Run(lib, facts, decoded);
      var features := Features.NumpyFeatures(lib, Samples(lib, decoded), Preprocessing.TargetRate);
      && r.stages == AllStages
      && (!VoiceDetected(features) ==> r == Verdict(Rejected, AllStages, Some(Unvoiced), None))
      && (VoiceDetected(features) ==> r.status == Success)
  {
    VoiceDecides(lib, Samples(lib, decoded));
  }

  lemma VoiceDecides(lib: Numerics, y: seq<real>)
    requires Lawful(lib)
    requires |QualityControl.Reasons(QualityControl.Measure(lib, y, Preprocessing.TargetRate))| == 0
    ensures var r := Screen(lib, y);
      var features := Features.NumpyFeatures(lib, y, Preprocessing.TargetRate);
      && r.stages == AllStages
      && (!VoiceDetected(features) ==> r == Verdict(Rejected, AllStages, Some(Unvoiced), None))
      && (VoiceDetected(features) ==> r.status == Success)
  {
  }

  /** The preprocessor replaces a decoding failure by one second of silence, which is long
      enough and unclipped but too quiet: such a file is rejected by the level check alone,
      never failed. */
  lemma DecodeErrorIsRejectedAsSilence(lib: Numerics, facts: Validation.FileFacts, decoded: Result<Preprocessing.WavData>)
    requires Lawful(lib)
    requires decoded.Ok? ==> Preprocessing.WellFormed(decoded.value)
    requires Validation.Validate(facts).Valid?
    requires Preprocessing.BeforeGain(lib, decoded).Err?
    ensures Run(lib, facts, decoded).status == Rejected
    ensures Run(lib, facts, decoded).rejections == Some([QualityControl.TooQuiet])
  {
    QualityControl.SilenceIsTooQuiet(lib);
    var m := QualityControl.Measure(lib, Zeros(16000), Preprocessing.TargetRate);
    assert m.duration >= QualityControl.MinDuration;
    assert QualityControl.Reasons(m) == [QualityControl.TooQuiet];
  }

  /** The quality report assess_quality returns for y at 16 kHz. */
  function Assessment(lib: Numerics, y: seq<real>): QualityControl.QualityReport
    requires Lawful(lib)
  {
    var m := QualityControl.Measure(lib, y, Preprocessing.TargetRate);
    QualityControl.QualityReport(|QualityControl.Reasons(m)| == 0, m, QualityControl.Reasons(m))
  }

  /** process_file: run the stages in order, recording each result and stopping at the first
      failure; the three clock readings are the start time, the report timestamp and the end
      time. */
  method ProcessFile(lib: Numerics, facts: Validation.FileFacts, decoded: Result<Preprocessing.WavData>,
                     startTime: real, timestamp: real, endTime: real)
    returns (report: Report)
    requires Lawful(lib)
    requires decoded.Ok? ==> Preprocessing.WellFormed(decoded.value)
    ensures fresh(report)
    ensures var r := Run(lib, facts, decoded);
      && report.status == r.status && Keys(report.stages) == r.stages
      && report.error == r.error && report.rejections == r.rejections
    ensures report.pipelineVersion == Version && report.timestamp == timestamp
    ensures report.processingTime == if report.status == Success then Some(endTime - startTime) else None
    ensures report.stages[0] == ValidationStage(Validation.Validate(facts))
    ensures |report.stages| > 1 ==> report.stages[1] == PreprocessingStage(Preprocessing.AuditOf(lib, decoded))
    ensures |report.stages| > 2 ==> report.stages[2] == QualityControlStage(Assessment(lib, Samples(lib, decoded)))
    ensures |report.stages| > 3 ==>
      report.stages[3] == FeatureExtractionStage(
        Features.NumpyFeatures(lib, Samples(lib, decoded), Preprocessing.TargetRate))
  {
    report := new Report(timestamp);

    // Stage 1: validation
    var validation := Validation.Validate(facts);
    report.stages := report.stages + [ValidationStage(validation)];
    if validation.Invalid? {
      report.status := Failed;
      report.error := Some(ValidationPrefix + Validation.ErrorText(validation.error));
      return;
    }

    // Stage 2: preprocessing, which never raises
    var y := RunPreprocessing(lib, decoded, report);
    RunScreening(lib, y, report, startTime, endTime);
  }

  /** Stage 2: the preprocessor's audit is recorded and its samples passed on; it returns
      at 16 kHz and never raises, so this stage cannot fail. */
  method RunPreprocessing(lib: Numerics, decoded: Result<Preprocessing.WavData>, report: Report)
    returns (y: seq<real>)
    requires Lawful(lib)
    requires decoded.Ok? ==> Preprocessing.WellFormed(decoded.value)
    requires Keys(report.stages) == AllStages[..1]
    modifies report
    ensures y == Samples(lib, decoded)
    ensures Keys(report.stages) == AllStages[..2] && report.stages[0] == old(report.stages[0])
    ensures report.stages[1] == PreprocessingStage(Preprocessing.AuditOf(lib, decoded))
    ensures report.status == old(report.status) && report.error == old(report.error)
    ensures report.rejections == old(report.rejections) && report.processingTime == old(report.processingTime)
  {
    var sr, audit;
    y, sr, audit := Preprocessing.Process(lib, decoded);
    report.stages := report.stages + [PreprocessingStage(audit)];
    assert Keys(report.stages) == AllStages[..2];
  }

  /** Stages 3 and 4 on the preprocessed samples: quality control, rejecting with its
      reasons, then feature extraction, rejecting an unvoiced signal; otherwise success. */
  method RunScreening(lib: Numerics, y: seq<real>, report: Report, startTime: real, endTime: real)
    requires Lawful(lib)
    requires Keys(report.stages) == AllStages[..2] && report.status == Pending
    requires report.error == None && report.rejections == None && report.processingTime == None
    modifies report
    ensures var r := Screen(lib, y);
      && report.status == r.status && Keys(report.stages) == r.stages
      && report.error == r.error && report.rejections == r.rejections
    ensures |report.stages| >= 2 && report.stages[..2] == old(report.stages)
    ensures report.processingTime == if report.status == Success then Some(endTime - startTime) else None
    ensures |report.stages| > 2 ==> report.stages[2] == QualityControlStage(Assessment(lib, y))
    ensures |report.stages| > 3 ==>
      report.stages[3] == FeatureExtractionStage(Features.NumpyFeatures(lib, y, Preprocessing.TargetRate))
  {
    // Stage 3: signal quality control
    var quality := QualityControl.AssessQuality(lib, y, Preprocessing.TargetRate);
    report.stages := report.stages + [QualityControlStage(quality)];
    assert Keys(report.stages) == AllStages[..3];
    if !quality.passed {
      report.status := Rejected;
      report.error := Some(QualityFailure);
      report.rejections := Some(quality.reasons);
      return;
    }
    RunFeatureExtraction(lib, y, report, startTime, endTime);
  }

  /** Stage 4: feature extraction, which never raises; an unvoiced signal is rejected,
      anything else succeeds and is timed. */
  method RunFeatureExtraction(lib: Numerics, y: seq<real>, report: Report, startTime: real, endTime: real)
    requires Lawful(lib)
    requires Keys(report.stages) == AllStages[..3] && report.status == Pending
    requires report.error == None && report.rejections == None && report.processingTime == None
    modifies report
    ensures var voiced := VoiceDetected(Features.NumpyFeatures(lib, y, Preprocessing.TargetRate));
      && report.status == (if voiced then Success else Rejected)
      && report.error == (if voiced then None else Some(Unvoiced))
    ensures report.stages == old(report.stages) + [FeatureExtractionStage(Features.NumpyFeatures(lib, y, Preprocessing.TargetRate))]
    ensures report.rejections == None
    ensures report.processingTime == if report.status == Success then Some(endTime - startTime) else None
  {
    var features := Features.ExtractFeatures(lib, y, Preprocessing.TargetRate);
    report.stages := report.stages + [FeatureExtractionStage(features.entries)];
    if !VoiceDetected(features.entries) {
      report.status := Rejected;
      report.error := Some(Unvoiced);
      return;
    }
    report.status := Success;
    report.processingTime := Some(endTime - startTime);
  }
}
