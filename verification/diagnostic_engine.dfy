/**
 * The orchestrator: runs the six levels in order, stops early at a safety
 * shutdown or when no fault survives detection or validation, keeps every
 * stage's output in its results table, and builds the final report with a
 * four-standard compliance summary.
 */
module DiagnosticEngine {
  import opened PumpData
  import SafetyGates
  import Iso10816Classifier
  import FftAnalyzer
  import CrossValidator
  import BayesianFusion
  import RiskAssessor
  import opened Ranking

  /** The keys of the engine's results table. */
  datatype ResultKey =
    | Level1Safety
    | Averages
    | Level2Severity
    | Level3Fft
    | Level4Validation
    | Level5Bayesian
    | Level6Risk
    | BearingCondition

  /** What each stage stores under its key. */
  datatype StageOutput =
    | SafetyOutput(safety: SafetyGates.SafetyResult)
    | AveragesOutput(averages: Iso10816Classifier.DirectionAverages)
    | SeverityOutput(zone: Iso10816Classifier.ZoneResult)
    | FftOutput(faults: seq<FftAnalyzer.FaultCandidate>, faultCount: nat)
    | ValidationOutput(validated: seq<CrossValidator.ValidatedFault>, validatedCount: nat)
    | FusionOutput(fusion: BayesianFusion.FusionResult)
    | RiskOutput(risk: RiskAssessor.RiskResult)
    | BearingOutput(bearing: FftAnalyzer.BearingAssessment)

  datatype ComplianceStatus = Compliant | ComplianceWarning | NonCompliant

  datatype Compliance = Compliance(
    iso10816: ComplianceStatus,
    iec60034: ComplianceStatus,
    api610: ComplianceStatus,
    iso15243: ComplianceStatus,
    overall: ComplianceStatus)

  datatype Report =
    | EmergencyReport(
        safety: SafetyGates.SafetyResult,
        recommendations: seq<RiskAssessor.Recommendation>,
        status: ComplianceStatus)
    | BasicReport(
        severity: Iso10816Classifier.ZoneResult,
        recommendations: seq<RiskAssessor.Recommendation>,
        status: ComplianceStatus)
    | ComprehensiveReport(
        summary: Diagnosed,
        safety: SafetyGates.SafetyResult,
        severity: Iso10816Classifier.ZoneResult,
        fft: StageOutput,
        validation: StageOutput,
        fusion: BayesianFusion.FusionResult,
        risk: RiskAssessor.RiskResult,
        bearing: FftAnalyzer.BearingAssessment,
        averages: Iso10816Classifier.DirectionAverages,
        recommendations: seq<RiskAssessor.Recommendation>,
        compliance: Compliance,
        confidenceScore: real)

  /** The single recommendation of an emergency report. */
  function ShutdownOrder(): (r: RiskAssessor.Recommendation)
    ensures r.priority == RiskAssessor.CriticalPriority && r.timeline == RiskAssessor.Immediately
  {
    RiskAssessor.Recommendation(RiskAssessor.CriticalPriority, RiskAssessor.Immediately,
      "SHUTDOWN MACHINE NOW", "OSHA 1910.147 + API 670 Annex G")
  }

  /** The single recommendation of a basic report. */
  function RoutineOrder(): (r: RiskAssessor.Recommendation)
    ensures r.priority == RiskAssessor.RoutinePriority && r.timeline == RiskAssessor.Monthly
  {
    RiskAssessor.Recommendation(RiskAssessor.RoutinePriority, RiskAssessor.Monthly,
      "Continue routine monitoring", "ISO 10816-3 Clause 5.2")
  }

  function ZoneCompliance(z: Iso10816Classifier.Zone): ComplianceStatus
  {
    match z
    case A => Compliant
    case B => Compliant
    case C => ComplianceWarning
    case D => NonCompliant
  }

  function StageCompliance(stage: nat): ComplianceStatus
  {
    if stage == 0 then Compliant else if stage == 1 then ComplianceWarning else NonCompliant
  }

  /** Compliance with ISO 10816-3, IEC 60034-1, API 610 and ISO 15243, and overall. */
  function AssessCompliance(zone: Iso10816Classifier.Zone, m: Measurements, bearingStage: nat): (c: Compliance)
    requires VoltageDefined(m)
    ensures c.iso10816 == Compliant <==> zone == Iso10816Classifier.A || zone == Iso10816Classifier.B
    ensures c.iso10816 == NonCompliant <==> zone == Iso10816Classifier.D
    ensures c.iec60034 == Compliant <==> VoltageImbalance(m) <= 2.0
    ensures c.iec60034 != ComplianceWarning
    ensures c.api610 == Compliant <==> FftAnalyzer.NpshaMargin(m) >= 0.6
    ensures c.api610 != NonCompliant
    ensures c.iso15243 == Compliant <==> bearingStage == 0
    ensures c.iso15243 == ComplianceWarning <==> bearingStage == 1
    ensures c.overall == Compliant <==>
      c.iso10816 == Compliant && c.iec60034 == Compliant && c.api610 == Compliant && c.iso15243 == Compliant
    ensures c.overall != ComplianceWarning
  {
    var iso10816 := ZoneCompliance(zone);
    var iec60034 := if VoltageImbalance(m) <= 2.0 then Compliant else NonCompliant;
    var api610 := if FftAnalyzer.NpshaMargin(m) >= 0.6 then Compliant else ComplianceWarning;
    var iso15243 := StageCompliance(bearingStage);
    var overall :=
      if iso10816 == Compliant && iec60034 == Compliant && api610 == Compliant && iso15243 == Compliant
      then Compliant else NonCompliant;
    Compliance(iso10816, iec60034, api610, iso15243, overall)
  }

  /** A bearing past stage 1 makes the whole assessment non-compliant, whatever the other three say. */
  lemma WornBearingIsNonCompliant(zone: Iso10816Classifier.Zone, m: Measurements, bearingStage: nat)
    requires VoltageDefined(m) && bearingStage >= 2
    ensures AssessCompliance(zone, m, bearingStage).iso15243 == NonCompliant
    ensures AssessCompliance(zone, m, bearingStage).overall == NonCompliant
  {
  }

  /** The faults the cross-validator accepted, in its order. */
  function ValidatedOnly(vs: seq<CrossValidator.ValidatedFault>): (r: seq<CrossValidator.ValidatedFault>)
    ensures |r| <= |vs|
    ensures forall v :: v in r <==> v in vs && v.isValidated
    ensures r == [] <==> forall i :: 0 <= i < |vs| ==> !vs[i].isValidated
  {
    if vs == [] then []
    else
      var rest := ValidatedOnly(vs[1..]);
      assert forall v :: v in vs <==> v == vs[0] || v in vs[1..];
      if vs[0].isValidated then [vs[0]] + rest else rest
  }

  /** Filtering distributes over concatenation, so the kept records stay in the validator's order. */
  lemma {:induction false} ValidatedOnlyAppend(a: seq<CrossValidator.ValidatedFault>, b: seq<CrossValidator.ValidatedFault>)
    ensures ValidatedOnly(a + b) == ValidatedOnly(a) + ValidatedOnly(b)
  {
    if a == [] {
      assert a + b == b;
    } else {
      var t := a[1..];
      assert a == [a[0]] + t;
      assert a + b == [a[0]] + (t + b);
      ValidatedOnlyAppend(t, b);
      ValidatedOnlyCons(a[0], t + b);
      ValidatedOnlyCons(a[0], t);
      Associative(if a[0].isValidated then [a[0]] else [], ValidatedOnly(t), ValidatedOnly(b));
    }
  }

  lemma ValidatedOnlyCons(h: CrossValidator.ValidatedFault, t: seq<CrossValidator.ValidatedFault>)
    ensures ValidatedOnly([h] + t) == (if h.isValidated then [h] else []) + ValidatedOnly(t)
  {
    assert ([h] + t)[0] == h && ([h] + t)[1..] == t;
  }

  /** A single record is kept exactly when it is validated. */
  lemma ValidatedOnlySingle(v: CrossValidator.ValidatedFault)
    ensures ValidatedOnly([v]) == if v.isValidated then [v] else []
  {
    assert [v][1..] == [];
  }

  /** What one run leaves behind: the results table, the input as the engine leaves it, and the report. */
  datatype Diagnosis = Diagnosis(results: map<ResultKey, StageOutput>, data: Measurements, report: Report)

  /** The run may proceed: a shutdown stops before any voltage reading is divided. */
  predicate CanDiagnose(m: Measurements)
  {
    VoltageDefined(m) || SafetyGates.AnyLimitExceeded(m)
  }

  /** The input as levels 3 to 6 see it: the maximum direction average stored as the vibration reading. */
  function WithVibrationMax(m: Measurements): (data: Measurements)
    ensures data.vibrationMaxAvr == Some(Iso10816Classifier.DirectionAveragesOf(m).maxVelocity)
    ensures data.(vibrationMaxAvr := m.vibrationMaxAvr) == m
  {
    m.(vibrationMaxAvr := Some(Iso10816Classifier.DirectionAveragesOf(m).maxVelocity))
  }

  /** The zone of the largest direction average, with the machine's speed, power and foundation. */
  function ZoneOf(m: Measurements): Iso10816Classifier.ZoneResult
  {
    Iso10816Classifier.ClassifyZone(Iso10816Classifier.DirectionAveragesOf(m).maxVelocity, m.motorRpm, m.motorKw, m.foundation)
  }

  /** The table after levels 5 and 6 and the bearing analysis have stored their results. */
  function RecordFused(
    table: map<ResultKey, StageOutput>,
    fusion: BayesianFusion.FusionResult,
    risk: RiskAssessor.RiskResult,
    bearing: FftAnalyzer.BearingAssessment): (r: map<ResultKey, StageOutput>)
    ensures forall k :: k in table ==> k in r
    ensures Level5Bayesian in r && Level6Risk in r && BearingCondition in r
  {
    table[Level5Bayesian := FusionOutput(fusion)][Level6Risk := RiskOutput(risk)][BearingCondition := BearingOutput(bearing)]
  }

  /** The bearing analysis of levels 5 and 6: high-frequency band, temperature rise and demodulation at the pump drive end. */
  function BearingOf(data: Measurements): (b: FftAnalyzer.BearingAssessment)
    ensures b.stage == FftAnalyzer.BearingStage(data.hfPumpDe)
    ensures b.hfValue == data.hfPumpDe && b.tempRise == data.tempPumpDe - 35.0 && b.demodValue == data.demodPumpDe
  {
    FftAnalyzer.AnalyzeBearingCondition(data.hfPumpDe, TempRise(data), data.demodPumpDe)
  }

  /** The comprehensive report built from the validated faults. */
  function FusedReport(
    data: Measurements,
    safety: SafetyGates.SafetyResult,
    averages: Iso10816Classifier.DirectionAverages,
    zone: Iso10816Classifier.ZoneResult,
    faults: seq<FftAnalyzer.FaultCandidate>,
    validated: seq<CrossValidator.ValidatedFault>,
    validatedOnly: seq<CrossValidator.ValidatedFault>): (r: Report)
    requires VoltageDefined(data)
    ensures r.ComprehensiveReport?
    ensures r.fusion == BayesianFusion.Fusion(validatedOnly, data)
    ensures r.risk == RiskAssessor.AssessRisk(r.fusion, data) && r.bearing == BearingOf(data)
    ensures r.summary == r.fusion.primaryFault && r.confidenceScore == r.fusion.primaryConfidence
    ensures r.recommendations == r.risk.recommendations
    ensures r.compliance == AssessCompliance(zone.zone, data, r.bearing.stage)
    ensures r.fft == FftOutput(faults, |faults|) && r.validation == ValidationOutput(validated, |validatedOnly|)
  {
    var fusion := BayesianFusion.Fusion(validatedOnly, data);
    var risk := RiskAssessor.AssessRisk(fusion, data);
    var bearing := BearingOf(data);
    ComprehensiveReport(fusion.primaryFault, safety, zone, FftOutput(faults, |faults|),
      ValidationOutput(validated, |validatedOnly|), fusion, risk, bearing, averages, risk.recommendations,
      AssessCompliance(zone.zone, data, bearing.stage), fusion.primaryConfidence)
  }

  /** The table after levels 4 to 6 once the detector has found something. */
  function RecordLate(table: map<ResultKey, StageOutput>, data: Measurements, faults: seq<FftAnalyzer.FaultCandidate>): (r: map<ResultKey, StageOutput>)
    requires VoltageDefined(data) && CrossValidator.AllValidatable(faults, data)
    ensures forall k :: k in table ==> k in r
    ensures Level4Validation in r
  {
    var validated := CrossValidator.CrossValidated(faults, data);
    var validatedOnly := ValidatedOnly(validated);
    var afterValidation := table[Level4Validation := ValidationOutput(validated, |validatedOnly|)];
    if validatedOnly == [] then afterValidation
    else
      var fusion := BayesianFusion.Fusion(validatedOnly, data);
      RecordFused(afterValidation, fusion, RiskAssessor.AssessRisk(fusion, data), BearingOf(data))
  }

  /** The report once the detector has found something: routine if nothing validates, comprehensive otherwise. */
  function LateReport(
    data: Measurements,
    safety: SafetyGates.SafetyResult,
    averages: Iso10816Classifier.DirectionAverages,
    zone: Iso10816Classifier.ZoneResult,
    faults: seq<FftAnalyzer.FaultCandidate>): (r: Report)
    requires VoltageDefined(data) && CrossValidator.AllValidatable(faults, data)
    ensures var validatedOnly := ValidatedOnly(CrossValidator.CrossValidated(faults, data));
      && (validatedOnly == [] <==> r.BasicReport?)
      && (validatedOnly == [] ==> r == BasicReport(zone, [RoutineOrder()], Compliant))
      && (validatedOnly != [] ==>
            r.ComprehensiveReport? && r.summary.Detected? && r.fusion == BayesianFusion.Fusion(validatedOnly, data))
  {
    var validated := CrossValidator.CrossValidated(faults, data);
    var validatedOnly := ValidatedOnly(validated);
    if validatedOnly == [] then BasicReport(zone, [RoutineOrder()], Compliant)
    else FusedReport(data, safety, averages, zone, faults, validated, validatedOnly)
  }

  /** Levels 3 to 6 on the updated input, once the severity zone is known. */
  function Detection(
    data: Measurements,
    safety: SafetyGates.SafetyResult,
    averages: Iso10816Classifier.DirectionAverages,
    zone: Iso10816Classifier.ZoneResult,
    table: map<ResultKey, StageOutput>): (d: Diagnosis)
    requires VoltageDefined(data)
    ensures forall k :: k in table ==> k in d.results
    ensures Level3Fft in d.results
    ensures d.data == data
  {
    var faults := FftAnalyzer.FftSignatures(data);
    var afterDetection := table[Level3Fft := FftOutput(faults, |faults|)];
    if faults == [] then
      Diagnosis(afterDetection, data, BasicReport(zone, [RoutineOrder()], Compliant))
    else
      CrossValidator.FftSignaturesValidatable(data);
      Diagnosis(RecordLate(afterDetection, data, faults), data, LateReport(data, safety, averages, zone, faults))
  }

  /** Levels 2 to 6 after a clean safety check. */
  function Proceed(input: Measurements, safety: SafetyGates.SafetyResult, table: map<ResultKey, StageOutput>): (d: Diagnosis)
    requires VoltageDefined(input)
    ensures forall k :: k in table ==> k in d.results
    ensures Averages in d.results && Level2Severity in d.results && Level3Fft in d.results
    ensures d.data == WithVibrationMax(input)
  {
    var averages := Iso10816Classifier.DirectionAveragesOf(input);
    var zone := ZoneOf(input);
    var data := WithVibrationMax(input);
    assert VoltageDefined(data);
    Detection(data, safety, averages, zone, table[Averages := AveragesOutput(averages)][Level2Severity := SeverityOutput(zone)])
  }

  /** Levels 3 to 6 see the input with its vibration maximum stored, the averages and the zone of level 2. */
  lemma ProceedIsDetection(input: Measurements, safety: SafetyGates.SafetyResult, table: map<ResultKey, StageOutput>)
    requires VoltageDefined(input)
    ensures VoltageDefined(WithVibrationMax(input))
    ensures var averages := Iso10816Classifier.DirectionAveragesOf(input);
      Proceed(input, safety, table) == Detection(WithVibrationMax(input), safety, averages, ZoneOf(input),
        table[Averages := AveragesOutput(averages)][Level2Severity := SeverityOutput(ZoneOf(input))])
  {
  }

  /** Past a clean safety check the run is levels 2 to 6 on the table holding the safety entry. */
  lemma DiagnoseProceeds(input: Measurements, table: map<ResultKey, StageOutput>)
    requires CanDiagnose(input) && !SafetyGates.AnyLimitExceeded(input)
    ensures VoltageDefined(input)
    ensures Diagnose(input, table) ==
      Proceed(input, SafetyGates.SafetyCheck(input), table[Level1Safety := SafetyOutput(SafetyGates.SafetyCheck(input))])
  {
  }

  /** One whole run as a function of the input and of the table the engine holds before it. */
  function Diagnose(input: Measurements, table: map<ResultKey, StageOutput>): (d: Diagnosis)
    requires CanDiagnose(input)
    ensures d.data == if SafetyGates.AnyLimitExceeded(input) then input else WithVibrationMax(input)
  {
    var safety := SafetyGates.SafetyCheck(input);
    var afterSafety := table[Level1Safety := SafetyOutput(safety)];
    if safety.shutdownRequired then
      Diagnosis(afterSafety, input, EmergencyReport(safety, [ShutdownOrder()], NonCompliant))
    else
      Proceed(input, safety, afterSafety)
  }

  /** The results table is never cleared: a run only adds or overwrites entries, and always records the safety check. */
  lemma ResultsNeverShrink(input: Measurements, table: map<ResultKey, StageOutput>)
    requires CanDiagnose(input)
    ensures forall k :: k in table ==> k in Diagnose(input, table).results
    ensures Level1Safety in Diagnose(input, table).results
  {
  }

  /** A tripped safety gate ends the run at level 1 with an emergency report; only the safety entry changes. */
  lemma EmergencyStopsAtLevel1(input: Measurements, table: map<ResultKey, StageOutput>)
    requires SafetyGates.AnyLimitExceeded(input)
    ensures Diagnose(input, table).report.EmergencyReport?
    ensures Diagnose(input, table).report.recommendations == [ShutdownOrder()]
    ensures Diagnose(input, table).report.status == NonCompliant
    ensures Diagnose(input, table).results == table[Level1Safety := SafetyOutput(SafetyGates.SafetyCheck(input))]
    ensures Diagnose(input, table).data == input
  {
  }

  /**
   * With no signature found the run stops after level 3 with a routine
   * report; entries left by an earlier run for levels 4 to 6 stay in the table.
   */
  lemma RoutineWhenNothingDetected(input: Measurements, table: map<ResultKey, StageOutput>)
    requires VoltageDefined(input) && !SafetyGates.AnyLimitExceeded(input)
    requires FftAnalyzer.FftSignatures(WithVibrationMax(input)) == []
    ensures Diagnose(input, table).report == BasicReport(ZoneOf(input), [RoutineOrder()], Compliant)
    ensures Diagnose(input, table).results ==
      table[Level1Safety := SafetyOutput(SafetyGates.SafetyCheck(input))]
           [Averages := AveragesOutput(Iso10816Classifier.DirectionAveragesOf(input))]
           [Level2Severity := SeverityOutput(ZoneOf(input))]
           [Level3Fft := FftOutput([], 0)]
  {
    var safety := SafetyGates.SafetyCheck(input);
    var afterSafety := table[Level1Safety := SafetyOutput(safety)];
    DiagnoseProceeds(input, table);
    ProceedIsDetection(input, safety, afterSafety);
    var averages := Iso10816Classifier.DirectionAveragesOf(input);
    DetectionFindsNothing(WithVibrationMax(input), safety, averages, ZoneOf(input),
      afterSafety[Averages := AveragesOutput(averages)][Level2Severity := SeverityOutput(ZoneOf(input))]);
  }

  /** With no signature the run stops at level 3 with a routine report. */
  lemma DetectionFindsNothing(
    data: Measurements,
    safety: SafetyGates.SafetyResult,
    averages: Iso10816Classifier.DirectionAverages,
    zone: Iso10816Classifier.ZoneResult,
    table: map<ResultKey, StageOutput>)
    requires VoltageDefined(data) && FftAnalyzer.FftSignatures(data) == []
    ensures Detection(data, safety, averages, zone, table) ==
      Diagnosis(table[Level3Fft := FftOutput([], 0)], data, BasicReport(zone, [RoutineOrder()], Compliant))
  {
  }

  /** Past a clean safety check and a non-empty detection, the report comes from levels 4 to 6 on the updated input. */
  lemma DiagnoseReachesValidation(input: Measurements, table: map<ResultKey, StageOutput>)
    requires CanDiagnose(input) && !SafetyGates.AnyLimitExceeded(input)
    requires FftAnalyzer.FftSignatures(WithVibrationMax(input)) != []
    ensures VoltageDefined(WithVibrationMax(input))
    ensures CrossValidator.AllValidatable(FftAnalyzer.FftSignatures(WithVibrationMax(input)), WithVibrationMax(input))
    ensures Diagnose(input, table).report == LateReport(WithVibrationMax(input), SafetyGates.SafetyCheck(input),
      Iso10816Classifier.DirectionAveragesOf(input), ZoneOf(input), FftAnalyzer.FftSignatures(WithVibrationMax(input)))
  {
    CrossValidator.FftSignaturesValidatable(WithVibrationMax(input));
  }

  /**
   * A comprehensive report names the fused primary fault, quotes its
   * posterior as the confidence score and carries the three-entry action
   * plan of a detected fault.
   */
  lemma ComprehensiveReportFacts(
    data: Measurements,
    safety: SafetyGates.SafetyResult,
    averages: Iso10816Classifier.DirectionAverages,
    zone: Iso10816Classifier.ZoneResult,
    faults: seq<FftAnalyzer.FaultCandidate>,
    validated: seq<CrossValidator.ValidatedFault>)
    requires VoltageDefined(data) && ValidatedOnly(validated) != []
    ensures var r := FusedReport(data, safety, averages, zone, faults, validated, ValidatedOnly(validated));
      && r.summary == r.fusion.primaryFault
      && r.summary.Detected?
      && r.confidenceScore == r.fusion.primaryConfidence
      && r.recommendations == r.risk.recommendations
      && |r.recommendations| == 3
      && r.validation == ValidationOutput(validated, |ValidatedOnly(validated)|)
      && |ValidatedOnly(validated)| > 0
  {
  }

  /** The run ends with the emergency report exactly when a safety limit is exceeded. */
  lemma EmergencyIffLimitExceeded(input: Measurements, table: map<ResultKey, StageOutput>)
    requires CanDiagnose(input)
    ensures Diagnose(input, table).report.EmergencyReport? <==> SafetyGates.AnyLimitExceeded(input)
  {
    if SafetyGates.AnyLimitExceeded(input) {
      EmergencyStopsAtLevel1(input, table);
    } else {
      var data := WithVibrationMax(input);
      if FftAnalyzer.FftSignatures(data) == [] {
        RoutineWhenNothingDetected(input, table);
      } else {
        DiagnoseReachesValidation(input, table);
      }
    }
  }

  /** The validator's records for the detector's findings on the given data. */
  function ValidationOf(data: Measurements): seq<CrossValidator.ValidatedFault>
    requires VoltageDefined(data)
  {
    CrossValidator.FftSignaturesValidatable(data);
    CrossValidator.CrossValidated(FftAnalyzer.FftSignatures(data), data)
  }

  /**
   * When the detector finds something but the validator accepts none of it,
   * the run ends with the routine report after level 4; the table gains the
   * entries of levels 1 to 4 and nothing else.
   */
  lemma NothingValidatedIsRoutine(input: Measurements, table: map<ResultKey, StageOutput>)
    requires VoltageDefined(input) && !SafetyGates.AnyLimitExceeded(input)
    requires FftAnalyzer.FftSignatures(WithVibrationMax(input)) != []
    requires ValidatedOnly(ValidationOf(WithVibrationMax(input))) == []
    ensures Diagnose(input, table).report == BasicReport(ZoneOf(input), [RoutineOrder()], Compliant)
    ensures var faults := FftAnalyzer.FftSignatures(WithVibrationMax(input));
      Diagnose(input, table).results ==
        table[Level1Safety := SafetyOutput(SafetyGates.SafetyCheck(input))]
             [Averages := AveragesOutput(Iso10816Classifier.DirectionAveragesOf(input))]
             [Level2Severity := SeverityOutput(ZoneOf(input))]
             [Level3Fft := FftOutput(faults, |faults|)]
             [Level4Validation := ValidationOutput(ValidationOf(WithVibrationMax(input)), 0)]
  {
    var safety := SafetyGates.SafetyCheck(input);
    var afterSafety := table[Level1Safety := SafetyOutput(safety)];
    DiagnoseProceeds(input, table);
    ProceedIsDetection(input, safety, afterSafety);
  }

  /**
   * When some detected fault validates, the run ends with the comprehensive
   * report over the validated faults; the table gains the entries of all
   * eight stages, each holding this run's result.
   */
  lemma ComprehensiveRunRecordsAllLevels(input: Measurements, table: map<ResultKey, StageOutput>)
    requires VoltageDefined(input) && !SafetyGates.AnyLimitExceeded(input)
    requires FftAnalyzer.FftSignatures(WithVibrationMax(input)) != []
    requires ValidatedOnly(ValidationOf(WithVibrationMax(input))) != []
    ensures var data := WithVibrationMax(input);
      var validated := ValidationOf(data);
      Diagnose(input, table).report ==
        FusedReport(data, SafetyGates.SafetyCheck(input), Iso10816Classifier.DirectionAveragesOf(input), ZoneOf(input),
          FftAnalyzer.FftSignatures(data), validated, ValidatedOnly(validated))
    ensures var data := WithVibrationMax(input);
      var faults := FftAnalyzer.FftSignatures(data);
      var validated := ValidationOf(data);
      var fusion := BayesianFusion.Fusion(ValidatedOnly(validated), data);
      Diagnose(input, table).results ==
        table[Level1Safety := SafetyOutput(SafetyGates.SafetyCheck(input))]
             [Averages := AveragesOutput(Iso10816Classifier.DirectionAveragesOf(input))]
             [Level2Severity := SeverityOutput(ZoneOf(input))]
             [Level3Fft := FftOutput(faults, |faults|)]
             [Level4Validation := ValidationOutput(validated, |ValidatedOnly(validated)|)]
             [Level5Bayesian := FusionOutput(fusion)]
             [Level6Risk := RiskOutput(RiskAssessor.AssessRisk(fusion, data))]
             [BearingCondition := BearingOutput(BearingOf(data))]
  {
    var safety := SafetyGates.SafetyCheck(input);
    var afterSafety := table[Level1Safety := SafetyOutput(safety)];
    DiagnoseProceeds(input, table);
    ProceedIsDetection(input, safety, afterSafety);
  }

  /** Every fault the cross-validator accepted is ranked by the fusion. */
  lemma FusionSeesEveryValidatedFault(data: Measurements, validated: seq<CrossValidator.ValidatedFault>, v: CrossValidator.ValidatedFault)
    requires VoltageDefined(data) && v in validated && v.isValidated
    ensures exists i ::
      && 0 <= i < |BayesianFusion.Fusion(ValidatedOnly(validated), data).allProbabilities|
      && BayesianFusion.Fusion(ValidatedOnly(validated), data).allProbabilities[i].kind == v.kind
  {
    var vs := ValidatedOnly(validated);
    var all := BayesianFusion.Fusion(vs, data).allProbabilities;
    var mapped := BayesianFusion.MapProbability(vs, data);
    var j :| 0 <= j < |vs| && vs[j] == v;
    assert mapped[j] in multiset(all);
    var i :| 0 <= i < |all| && all[i] == mapped[j];
  }

  /** Fusion only ever ranks faults the cross-validator accepted. */
  lemma FusionSeesOnlyValidatedFaults(
    data: Measurements,
    safety: SafetyGates.SafetyResult,
    averages: Iso10816Classifier.DirectionAverages,
    zone: Iso10816Classifier.ZoneResult,
    faults: seq<FftAnalyzer.FaultCandidate>,
    validated: seq<CrossValidator.ValidatedFault>,
    i: nat)
    requires VoltageDefined(data)
    requires i < |FusedReport(data, safety, averages, zone, faults, validated, ValidatedOnly(validated)).fusion.allProbabilities|
    ensures exists v :: (v in validated && v.isValidated &&
      v.kind == FusedReport(data, safety, averages, zone, faults, validated, ValidatedOnly(validated)).fusion.allProbabilities[i].kind)
  {
    var validatedOnly := ValidatedOnly(validated);
    BayesianFusion.FusionEntriesComeFromInput(validatedOnly, data, i);
    var j :| 0 <= j < |validatedOnly| && validatedOnly[j].kind == BayesianFusion.Fusion(validatedOnly, data).allProbabilities[i].kind;
    assert validatedOnly[j] in validatedOnly;
  }

  /** The orchestrator object; its results table outlives a run and is never cleared. */
  class PumpDiagnosticEngine {
    var results: map<ResultKey, StageOutput>
    /** the last input, as the run left it */
    var inputData: Option<Measurements>

    constructor()
      ensures results == map[] && inputData == None
    {
      results := map[];
      inputData := None;
    }

    /** One run of the six levels, storing each stage's output in the results table as it goes. */
    method RunDiagnosis(input: Measurements) returns (report: Report)
      requires CanDiagnose(input)
      modifies this
      ensures inputData.Some? && Diagnosis(results, inputData.value, report) == Diagnose(input, old(results))
    {
      inputData := Some(input);
      var safety := SafetyGates.SafetyGatesCheck(input);
      results := results[Level1Safety := SafetyOutput(safety)];
      if safety.shutdownRequired {
        report := EmergencyReport(safety, [ShutdownOrder()], NonCompliant);
        return;
      }
      inputData := Some(WithVibrationMax(input));
      report := AssessSeverity(input, safety, results);
    }

    /** Level 2, then the rest of the run on the input with its vibration maximum stored. */
    method AssessSeverity(input: Measurements, safety: SafetyGates.SafetyResult, ghost table: map<ResultKey, StageOutput>) returns (report: Report)
      requires VoltageDefined(input) && results == table
      modifies this`results
      ensures report == Proceed(input, safety, table).report
      ensures results == Proceed(input, safety, table).results
    {
      var averages := Iso10816Classifier.DirectionAveragesOf(input);
      results := results[Averages := AveragesOutput(averages)];
      var zone := ZoneOf(input);
      results := results[Level2Severity := SeverityOutput(zone)];
      ProceedIsDetection(input, safety, table);
      report := DetectFaults(WithVibrationMax(input), safety, averages, zone);
    }

    /** Level 3; a run that finds nothing stops here with a routine report. */
    method DetectFaults(
      data: Measurements,
      safety: SafetyGates.SafetyResult,
      averages: Iso10816Classifier.DirectionAverages,
      zone: Iso10816Classifier.ZoneResult) returns (report: Report)
      requires VoltageDefined(data)
      modifies this`results
      ensures report == Detection(data, safety, averages, zone, old(results)).report
      ensures results == Detection(data, safety, averages, zone, old(results)).results
    {
      var faults := FftAnalyzer.DetectFftSignatures(data);
      results := results[Level3Fft := FftOutput(faults, |faults|)];
      if faults == [] {
        report := BasicReport(zone, [RoutineOrder()], Compliant);
        return;
      }

      CrossValidator.FftSignaturesValidatable(data);
      report := EscalateFaults(data, safety, averages, zone, faults);
    }

    /** Levels 4 to 6: cross-validation, then fusion of the validated faults, risk and the bearing condition. */
    method EscalateFaults(
      data: Measurements,
      safety: SafetyGates.SafetyResult,
      averages: Iso10816Classifier.DirectionAverages,
      zone: Iso10816Classifier.ZoneResult,
      faults: seq<FftAnalyzer.FaultCandidate>) returns (report: Report)
      requires VoltageDefined(data) && CrossValidator.AllValidatable(faults, data)
      modifies this`results
      ensures report == LateReport(data, safety, averages, zone, faults)
      ensures results == RecordLate(old(results), data, faults)
    {
      var validated := CrossValidator.CrossValidateFaults(faults, data);
      var validatedOnly := ValidatedOnly(validated);
      results := results[Level4Validation := ValidationOutput(validated, |validatedOnly|)];
      if validatedOnly == [] {
        report := BasicReport(zone, [RoutineOrder()], Compliant);
        return;
      }
      report := FuseAndAssess(data, safety, averages, zone, faults, validated, validatedOnly);
    }

    /** Levels 5 and 6 and the bearing analysis, on the validated faults only. */
    method FuseAndAssess(
      data: Measurements,
      safety: SafetyGates.SafetyResult,
      averages: Iso10816Classifier.DirectionAverages,
      zone: Iso10816Classifier.ZoneResult,
      faults: seq<FftAnalyzer.FaultCandidate>,
      validated: seq<CrossValidator.ValidatedFault>,
      validatedOnly: seq<CrossValidator.ValidatedFault>) returns (report: Report)
      requires VoltageDefined(data)
      modifies this`results
      ensures report == FusedReport(data, safety, averages, zone, faults, validated, validatedOnly)
      ensures var fusion := BayesianFusion.Fusion(validatedOnly, data);
        results == RecordFused(old(results), fusion, RiskAssessor.AssessRisk(fusion, data), BearingOf(data))
    {
      var fusion := BayesianFusion.FuseFaults(validatedOnly, data);
      results := results[Level5Bayesian := FusionOutput(fusion)];
      var risk := RiskAssessor.AssessRisk(fusion, data);
      results := results[Level6Risk := RiskOutput(risk)];
      var bearing := BearingOf(data);
      results := results[BearingCondition := BearingOutput(bearing)];
      report := ComprehensiveReport(fusion.primaryFault, safety, zone, FftOutput(faults, |faults|),
        ValidationOutput(validated, |validatedOnly|), fusion, risk, bearing, averages, risk.recommendations,
        AssessCompliance(zone.zone, data, bearing.stage), fusion.primaryConfidence);
    }
  }
}
