/**
 * Level 3 of the diagnostic engine: five independent rules over the three global
 * FFT peaks and the electrical, thermal and hydraulic readings, each
 * proposing one fault candidate with a fixed confidence; and the ISO 15243
 * style bearing stage used by the final report.
 */
module FftAnalyzer {
  import opened PumpData
  import opened Ranking

  /** A proposed fault.  The evidence sentences of the source are not modelled. */
  datatype FaultCandidate = FaultCandidate(
    kind: FaultType,
    confidence: real,
    standard: string,
    severity: Severity)

  function Confidence(f: FaultCandidate): real
  {
    f.confidence
  }

  function RuleConfidence(k: FaultType): real
  {
    match k
    case ElectricalUnbalance => 0.92
    case MechanicalUnbalance => 0.88
    case AngularMisalignment => 0.85
    case ParallelMisalignment => 0.85
    case BearingDefect => 0.87
    case Cavitation => 0.80
  }

  function RuleStandard(k: FaultType): string
  {
    match k
    case ElectricalUnbalance => "ISO 13373-2 Clause 5.4.3 + NEMA MG-1 \U{00A7}14.32"
    case MechanicalUnbalance => "ISO 1940-1:2003 G2.5"
    case AngularMisalignment => "API 671 Clause 5.3"
    case ParallelMisalignment => "API 671 Clause 5.3"
    case BearingDefect => "ISO 15243:2017 Table 2 (Stage 2 defect)"
    case Cavitation => "API 610 Clause 7.3.2"
  }

  /** The single candidate each rule can emit; every rule reports severity WARNING. */
  function CandidateFor(k: FaultType): (f: FaultCandidate)
    ensures f.kind == k && f.severity == Warning
    ensures f.confidence in {0.92, 0.88, 0.87, 0.85, 0.80}
  {
    FaultCandidate(k, RuleConfidence(k), RuleStandard(k), Warning)
  }

  predicate IsVoltageImbalanced(m: Measurements)
    requires VoltageDefined(m)
  {
    VoltageImbalance(m) > 2.0
  }

  /** Peak 2 within 10% of 2X and above half of peak 1. */
  predicate IsTwoXDominant(m: Measurements)
  {
    var second := 2.0 * Fundamental(m);
    Abs(m.peak2Freq - second) < 0.1 * second && Peak2Ratio(m) > 0.50
  }

  predicate IsAxialDominant(m: Measurements)
  {
    PumpAxialAvg(m) > 0.7 * PumpVerticalAvg(m)
  }

  /** Peak 3 above 50 Hz and more than 20% away from each of 1X, 2X and 3X. */
  predicate IsBpfoCandidate(m: Measurements)
  {
    var f := Fundamental(m);
    && m.peak3Freq > 50.0
    && Abs(m.peak3Freq - f) > 0.2 * f
    && Abs(m.peak3Freq - 2.0 * f) > 0.2 * (2.0 * f)
    && Abs(m.peak3Freq - 3.0 * f) > 0.2 * (3.0 * f)
  }

  predicate IsBearingDefect(m: Measurements)
  {
    m.hfPumpDe > 0.7 && (IsBpfoCandidate(m) || TempGradient(m) > 15.0)
  }

  /** NPSH available minus NPSH required, with NPSHa approximated as p_suc + 10.33 - 0.5. */
  function NpshaMargin(m: Measurements): real
  {
    m.pSuc + 10.33 - 0.5 - m.npshr
  }

  /** Distance of the flow from the best efficiency point in percent; 0 when bep_flow is not positive. */
  function BepDeviation(m: Measurements): (r: real)
    ensures r >= 0.0
    ensures m.bepFlow <= 0.0 ==> r == 0.0
  {
    if m.bepFlow > 0.0 then Abs(m.actualFlow - m.bepFlow) / m.bepFlow * 100.0 else 0.0
  }

  predicate IsCavitationRisk(m: Measurements)
  {
    NpshaMargin(m) < 0.6 && BepDeviation(m) > 20.0
  }

  predicate ElectricalRule(m: Measurements)
    requires VoltageDefined(m)
  {
    IsTwoLineFreqDominant(m) && IsVoltageImbalanced(m)
  }

  /** The phase is taken as stable whenever 2LF is not dominant. */
  predicate MechanicalRule(m: Measurements)
    requires VoltageDefined(m)
  {
    IsOneXDominant(m) && !IsTwoLineFreqDominant(m) && !IsVoltageImbalanced(m)
  }

  /** The misalignment subtype: angular when the pump axial average exceeds 0.7 of the vertical one. */
  function MisalignmentKind(m: Measurements): (k: FaultType)
    ensures IsMisalignment(k)
    ensures k == AngularMisalignment <==> PumpAxialAvg(m) > 0.7 * PumpVerticalAvg(m)
  {
    if IsAxialDominant(m) then AngularMisalignment else ParallelMisalignment
  }

  function Emit(fires: bool, k: FaultType): seq<FaultCandidate>
  {
    if fires then [CandidateFor(k)] else []
  }

  /** Every candidate is the fixed one of its rule, and no two share a fault type. */
  ghost predicate WellFormed(fs: seq<FaultCandidate>)
  {
    && (forall i :: 0 <= i < |fs| ==> fs[i] == CandidateFor(fs[i].kind))
    && (forall i, j :: 0 <= i < j < |fs| ==> fs[i].kind != fs[j].kind)
  }

  ghost predicate KindsAmong(fs: seq<FaultCandidate>, ks: set<FaultType>)
  {
    forall i :: 0 <= i < |fs| ==> fs[i].kind in ks
  }

  lemma AppendEmit(rest: seq<FaultCandidate>, fires: bool, k: FaultType, ks: set<FaultType>)
    requires WellFormed(rest) && KindsAmong(rest, ks) && k !in ks
    ensures WellFormed(rest + Emit(fires, k)) && KindsAmong(rest + Emit(fires, k), ks + {k})
    ensures |rest + Emit(fires, k)| <= |rest| + 1
  {
    var r := rest + Emit(fires, k);
    if fires {
      assert r[|rest|] == CandidateFor(k);
      forall i | 0 <= i < |rest|
        ensures r[i] == rest[i]
      {
      }
    } else {
      assert r == rest;
    }
  }

  /** The rule outcomes collected in the order the rules run. */
  function Collect(electrical: bool, mechanical: bool, misaligned: bool, misKind: FaultType,
                   bearing: bool, cavitation: bool): (fs: seq<FaultCandidate>)
    requires IsMisalignment(misKind)
    ensures |fs| <= 5
    ensures WellFormed(fs)
  {
    var s1 := Emit(electrical, ElectricalUnbalance);
    AppendEmit([], electrical, ElectricalUnbalance, {});
    assert s1 == [] + s1;
    var s2 := s1 + Emit(mechanical, MechanicalUnbalance);
    AppendEmit(s1, mechanical, MechanicalUnbalance, {ElectricalUnbalance});
    var s3 := s2 + Emit(misaligned, misKind);
    AppendEmit(s2, misaligned, misKind, {ElectricalUnbalance, MechanicalUnbalance});
    var s4 := s3 + Emit(bearing, BearingDefect);
    AppendEmit(s3, bearing, BearingDefect, {ElectricalUnbalance, MechanicalUnbalance, misKind});
    var s5 := s4 + Emit(cavitation, Cavitation);
    AppendEmit(s4, cavitation, Cavitation, {ElectricalUnbalance, MechanicalUnbalance, misKind, BearingDefect});
    s5
  }

  /** Appending one rule's outcome adds its candidate exactly when the rule fired. */
  lemma EmitMembers(rest: seq<FaultCandidate>, fires: bool, k: FaultType, x: FaultCandidate)
    ensures x in rest + Emit(fires, k) <==> x in rest || (fires && x == CandidateFor(k))
    ensures |rest + Emit(fires, k)| == |rest| + (if fires then 1 else 0)
  {
    if fires {
      assert rest + Emit(fires, k) == rest + [CandidateFor(k)];
    } else {
      assert rest + Emit(fires, k) == rest;
    }
  }

  /** A fault type is collected exactly when its rule fired. */
  lemma CollectMembers(electrical: bool, mechanical: bool, misaligned: bool, misKind: FaultType,
                       bearing: bool, cavitation: bool, k: FaultType)
    requires IsMisalignment(misKind)
    ensures CandidateFor(k) in Collect(electrical, mechanical, misaligned, misKind, bearing, cavitation) <==>
      || (k == ElectricalUnbalance && electrical)
      || (k == MechanicalUnbalance && mechanical)
      || (k == misKind && misaligned)
      || (k == BearingDefect && bearing)
      || (k == Cavitation && cavitation)
    ensures Collect(electrical, mechanical, misaligned, misKind, bearing, cavitation) == [] <==>
      !electrical && !mechanical && !misaligned && !bearing && !cavitation
  {
    var x := CandidateFor(k);
    var s1 := Emit(electrical, ElectricalUnbalance);
    EmitMembers([], electrical, ElectricalUnbalance, x);
    assert [] + s1 == s1;
    var s2 := s1 + Emit(mechanical, MechanicalUnbalance);
    EmitMembers(s1, mechanical, MechanicalUnbalance, x);
    var s3 := s2 + Emit(misaligned, misKind);
    EmitMembers(s2, misaligned, misKind, x);
    var s4 := s3 + Emit(bearing, BearingDefect);
    EmitMembers(s3, bearing, BearingDefect, x);
    var s5 := s4 + Emit(cavitation, Cavitation);
    EmitMembers(s4, cavitation, Cavitation, x);
    assert Collect(electrical, mechanical, misaligned, misKind, bearing, cavitation) == s5;
  }

  /** The candidates in the order the rules run, before sorting. */
  function Detections(m: Measurements): (fs: seq<FaultCandidate>)
    requires VoltageDefined(m)
    ensures |fs| <= 5
    ensures WellFormed(fs)
  {
    Collect(ElectricalRule(m), MechanicalRule(m), IsTwoXDominant(m), MisalignmentKind(m),
      IsBearingDefect(m), IsCavitationRisk(m))
  }

  /** The detector's result: the candidates sorted by non-increasing confidence, ties kept in rule order. */
  function FftSignatures(m: Measurements): (fs: seq<FaultCandidate>)
    requires VoltageDefined(m)
    ensures |fs| <= 5
    ensures WellFormed(fs)
    ensures SortedDesc(fs, Confidence)
    ensures multiset(fs) == multiset(Detections(m))
  {
    SortKeepsWellFormed(Detections(m));
    SortDesc(Detections(m), Confidence)
  }

  lemma SortKeepsWellFormed(d: seq<FaultCandidate>)
    requires WellFormed(d)
    ensures WellFormed(SortDesc(d, Confidence))
  {
    var r := SortDesc(d, Confidence);
    forall i, j | 0 <= i < j < |r|
      ensures r[i].kind != r[j].kind
    {
      assert r[i] in d && r[j] in d by {
        SortDescMembers(d, Confidence, r[i]);
        SortDescMembers(d, Confidence, r[j]);
      }
      var i', j' :| 0 <= i' < |d| && d[i'] == r[i] && 0 <= j' < |d| && d[j'] == r[j];
      SortDescDistinct(d, Confidence);
    }
    forall i | 0 <= i < |r|
      ensures r[i] == CandidateFor(r[i].kind)
    {
      SortDescMembers(d, Confidence, r[i]);
    }
  }

  /** Which rule fired, read off the sorted result. */
  predicate Reported(fs: seq<FaultCandidate>, k: FaultType)
  {
    CandidateFor(k) in fs
  }

  lemma ReportedAfterSort(m: Measurements, k: FaultType)
    requires VoltageDefined(m)
    ensures Reported(FftSignatures(m), k) <==> Reported(Detections(m), k)
  {
    SortDescMembers(Detections(m), Confidence, CandidateFor(k));
  }

  /** The conditions under which each fault type's rule fires. */
  predicate RuleFires(m: Measurements, k: FaultType)
    requires VoltageDefined(m)
  {
    match k
    case ElectricalUnbalance => ElectricalRule(m)
    case MechanicalUnbalance => MechanicalRule(m)
    case AngularMisalignment => IsTwoXDominant(m) && IsAxialDominant(m)
    case ParallelMisalignment => IsTwoXDominant(m) && !IsAxialDominant(m)
    case BearingDefect => IsBearingDefect(m)
    case Cavitation => IsCavitationRisk(m)
  }

  /** A fault type is reported exactly when its rule fires. */
  lemma ReportedIffFires(m: Measurements, k: FaultType)
    requires VoltageDefined(m)
    ensures Reported(FftSignatures(m), k) <==> RuleFires(m, k)
  {
    ReportedAfterSort(m, k);
    CollectMembers(ElectricalRule(m), MechanicalRule(m), IsTwoXDominant(m), MisalignmentKind(m),
      IsBearingDefect(m), IsCavitationRisk(m), k);
    RuleFiresByKind(m, k);
  }

  /** The rule of each fault type, with the misalignment subtype read off the axial check. */
  lemma RuleFiresByKind(m: Measurements, k: FaultType)
    requires VoltageDefined(m)
    ensures RuleFires(m, k) <==>
      || (k == ElectricalUnbalance && ElectricalRule(m))
      || (k == MechanicalUnbalance && MechanicalRule(m))
      || (k == MisalignmentKind(m) && IsTwoXDominant(m))
      || (k == BearingDefect && IsBearingDefect(m))
      || (k == Cavitation && IsCavitationRisk(m))
  {
  }

  /** The result is empty exactly when no rule fires. */
  lemma NoSignatureIffNoRule(m: Measurements)
    requires VoltageDefined(m)
    ensures FftSignatures(m) == [] <==>
      !ElectricalRule(m) && !MechanicalRule(m) && !IsTwoXDominant(m) && !IsBearingDefect(m) && !IsCavitationRisk(m)
  {
    CollectMembers(ElectricalRule(m), MechanicalRule(m), IsTwoXDominant(m), MisalignmentKind(m),
      IsBearingDefect(m), IsCavitationRisk(m), Cavitation);
  }

  /** The mechanical rule requires the absence of the voltage imbalance the electrical rule requires. */
  lemma ElectricalExcludesMechanical(m: Measurements)
    requires VoltageDefined(m)
    ensures !(Reported(FftSignatures(m), ElectricalUnbalance) && Reported(FftSignatures(m), MechanicalUnbalance))
  {
    ReportedIffFires(m, ElectricalUnbalance);
    ReportedIffFires(m, MechanicalUnbalance);
  }

  /** At most one misalignment subtype is reported. */
  lemma OneMisalignmentSubtype(m: Measurements)
    requires VoltageDefined(m)
    ensures !(Reported(FftSignatures(m), AngularMisalignment) && Reported(FftSignatures(m), ParallelMisalignment))
  {
    ReportedIffFires(m, AngularMisalignment);
    ReportedIffFires(m, ParallelMisalignment);
  }

  /** A 1X-dominant spectrum needs a positive shaft speed, so a mechanical unbalance implies rpm > 0. */
  lemma MechanicalNeedsPositiveSpeed(m: Measurements)
    requires VoltageDefined(m)
    requires Reported(FftSignatures(m), MechanicalUnbalance)
    ensures m.motorRpm > 0.0
  {
    ReportedIffFires(m, MechanicalUnbalance);
  }

  /**
   * The detector as the source runs it: one conditional append per rule,
   * then an in-place stable sort.  The source's local flags are the
   * predicates above.
   */
  method DetectFftSignatures(m: Measurements) returns (faults: seq<FaultCandidate>)
    requires VoltageDefined(m)
    ensures faults == FftSignatures(m)
  {
    faults := [];
    var is2lfDominant := IsTwoLineFreqDominant(m);
    var isVImbalance := IsVoltageImbalanced(m);
    if is2lfDominant && isVImbalance {
      faults := faults + [CandidateFor(ElectricalUnbalance)];
    }
    ghost var t1 := faults;

    var isPhaseStable := !is2lfDominant;
    if IsOneXDominant(m) && isPhaseStable && !isVImbalance {
      faults := faults + [CandidateFor(MechanicalUnbalance)];
    }
    ghost var t2 := faults;

    if IsTwoXDominant(m) {
      var alignment := if IsAxialDominant(m) then AngularMisalignment else ParallelMisalignment;
      faults := faults + [CandidateFor(alignment)];
    }
    ghost var t3 := faults;

    if m.hfPumpDe > 0.7 && (IsBpfoCandidate(m) || TempGradient(m) > 15.0) {
      faults := faults + [CandidateFor(BearingDefect)];
    }
    ghost var t4 := faults;

    var npshaMargin := NpshaMargin(m);
    if npshaMargin < 0.6 && BepDeviation(m) > 20.0 {
      faults := faults + [CandidateFor(Cavitation)];
    }
    assert t1 == Emit(ElectricalRule(m), ElectricalUnbalance);
    assert t2 == t1 + Emit(MechanicalRule(m), MechanicalUnbalance);
    assert t3 == t2 + Emit(IsTwoXDominant(m), MisalignmentKind(m));
    assert t4 == t3 + Emit(IsBearingDefect(m), BearingDefect);
    assert faults == t4 + Emit(IsCavitationRisk(m), Cavitation);
    assert faults == Detections(m);

    faults := SortDesc(faults, Confidence);
  }

  // ---------------------------------------------------------------------
  // Bearing condition

  /** Defect stage from the 5-16 kHz band (g RMS): below 0.3, 0.7 and 1.5 give stages 0, 1 and 2. */
  function BearingStage(hf: real): (s: nat)
    ensures s <= 3
    ensures s == 0 <==> hf < 0.3
    ensures s == 1 <==> 0.3 <= hf < 0.7
    ensures s == 2 <==> 0.7 <= hf < 1.5
    ensures s == 3 <==> 1.5 <= hf
  {
    if hf < 0.3 then 0
    else if hf < 0.7 then 1
    else if hf < 1.5 then 2
    else 3
  }

  function StageCondition(stage: nat): string
  {
    if stage == 0 then "NORMAL"
    else if stage == 1 then "EARLY STAGE"
    else if stage == 2 then "MODERATE DEFECT"
    else "SEVERE DEFECT"
  }

  function StageAdvice(stage: nat): string
  {
    if stage == 0 then "Continue routine monitoring"
    else if stage == 1 then "Monitor closely - defect incipient"
    else if stage == 2 then "Plan replacement within 30 days"
    else "Replace immediately - failure imminent"
  }

  const OverheatingMark: string := " + OVERHEATING"
  const ImpactMark: string := " + IMPACT DETECTED"
  const UrgentAdvice: string := "URGENT: Replace bearing and check lubrication"
  const DemodulationNote: string := " - Demodulation confirms defect"

  predicate EndsWith(s: string, suffix: string)
  {
    |suffix| <= |s| && s[|s| - |suffix|..] == suffix
  }

  datatype BearingAssessment = BearingAssessment(
    stage: nat,
    condition: string,
    hfValue: real,
    tempRise: real,
    demodValue: real,
    recommendation: string,
    standard: string)

  /** The condition wording: the stage's, then the overheating and impact marks. */
  function ConditionText(stage: nat, tempRise: real, demod: real): (c: string)
    ensures StageCondition(stage) <= c
    ensures StageCondition(stage) + OverheatingMark <= c <==> tempRise > 60.0
    ensures EndsWith(c, ImpactMark) <==> demod > 0.5
  {
    var condition := StageCondition(stage) + (if tempRise > 60.0 then OverheatingMark else "");
    var full := condition + (if demod > 0.5 then ImpactMark else "");
    assert full[..|condition|] == condition;
    assert demod <= 0.5 ==> full == condition;
    assert condition[|condition| - 1] != ImpactMark[|ImpactMark| - 1];
    assert tempRise <= 60.0 && demod > 0.5 ==> full[|StageCondition(stage)| + 3] == 'I';
    full
  }

  /** The advice: urgent replacement when overheating, the stage's advice otherwise, and the demodulation note. */
  function AdviceText(stage: nat, tempRise: real, demod: real): (a: string)
    ensures tempRise > 60.0 ==> UrgentAdvice <= a
    ensures tempRise <= 60.0 ==> StageAdvice(stage) <= a
    ensures EndsWith(a, DemodulationNote) <==> demod > 0.5
  {
    var advice := if tempRise > 60.0 then UrgentAdvice else StageAdvice(stage);
    var full := advice + (if demod > 0.5 then DemodulationNote else "");
    assert full[..|advice|] == advice;
    assert demod <= 0.5 ==> full == advice;
    full
  }

  /**
   * The stage comes from the HF band alone; a temperature rise above 60 deg C
   * marks overheating and replaces the advice, and a demodulation value above
   * 0.5 g marks impacts and extends the advice.
   */
  function AnalyzeBearingCondition(hf: real, tempRise: real, demod: real): (r: BearingAssessment)
    ensures r.stage == BearingStage(hf)
    ensures StageCondition(r.stage) <= r.condition
    ensures StageCondition(r.stage) + OverheatingMark <= r.condition <==> tempRise > 60.0
    ensures EndsWith(r.condition, ImpactMark) <==> demod > 0.5
    ensures tempRise > 60.0 ==> UrgentAdvice <= r.recommendation
    ensures tempRise <= 60.0 ==> StageAdvice(r.stage) <= r.recommendation
    ensures EndsWith(r.recommendation, DemodulationNote) <==> demod > 0.5
    ensures r.hfValue == hf && r.tempRise == tempRise && r.demodValue == demod
  {
    var stage := BearingStage(hf);
    BearingAssessment(stage, ConditionText(stage, tempRise, demod), hf, tempRise, demod,
      AdviceText(stage, tempRise, demod), "ISO 15243:2017 Table 2")
  }

  /** A larger HF reading never gives an earlier stage. */
  lemma BearingStageMonotone(hf1: real, hf2: real)
    requires hf1 <= hf2
    ensures BearingStage(hf1) <= BearingStage(hf2)
  {
  }

  /** Temperature and demodulation change the wording, never the stage. */
  lemma BearingStageIgnoresTemperature(hf: real, rise1: real, rise2: real, demod1: real, demod2: real)
    ensures AnalyzeBearingCondition(hf, rise1, demod1).stage == AnalyzeBearingCondition(hf, rise2, demod2).stage
  {
  }

  /** A bearing defect reported by the detector is always stage 2 or worse. */
  lemma DetectedBearingDefectStage(m: Measurements)
    requires VoltageDefined(m)
    requires Reported(FftSignatures(m), BearingDefect)
    ensures BearingStage(m.hfPumpDe) >= 2
  {
    ReportedIffFires(m, BearingDefect);
  }
}
