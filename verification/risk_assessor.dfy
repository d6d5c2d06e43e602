/**
 * Level 6 of the diagnostic engine: a risk level from a 3x3 severity/probability
 * matrix (ISO 45001 Annex A, API 581 risk-based inspection), an MTBF
 * estimate in whole days, and the fault-specific action plan.
 */
module RiskAssessor {
  import opened PumpData
  import Iso10816Classifier
  import BayesianFusion

  /** The three rows/columns of the risk matrix. */
  datatype Rating = High | Medium | Low

  function RatingRank(r: Rating): nat
  {
    match r
    case Low => 0
    case Medium => 1
    case High => 2
  }

  datatype RiskLevel = CriticalRisk | HighRisk | MediumRisk | LowRisk

  function RiskRank(r: RiskLevel): nat
  {
    match r
    case LowRisk => 0
    case MediumRisk => 1
    case HighRisk => 2
    case CriticalRisk => 3
  }

  datatype Timeline = WithinHours(hours: nat) | WithinDays(days: nat) | Daily | Weekly | Monthly | Immediately

  datatype ActionPriority =
    | ImmediateShutdown
    | CorrectiveMaintenance
    | ScheduledMaintenance
    | PlannedMaintenance
    | RoutineMonitoring

  /** One cell of the risk matrix. */
  datatype RiskCell = RiskCell(risk: RiskLevel, timeline: Timeline, action: ActionPriority)

  /** The zone the risk assessment uses: the fixed 2.8 / 7.1 / 11.2 mm/s boundaries. */
  function SeverityZone(vibrationMax: real): (z: Iso10816Classifier.Zone)
    ensures z == Iso10816Classifier.D <==> vibrationMax > 11.2
    ensures z == Iso10816Classifier.C <==> 7.1 < vibrationMax <= 11.2
    ensures z == Iso10816Classifier.B <==> 2.8 < vibrationMax <= 7.1
    ensures z == Iso10816Classifier.A <==> vibrationMax <= 2.8
  {
    if vibrationMax > 11.2 then Iso10816Classifier.D
    else if vibrationMax > 7.1 then Iso10816Classifier.C
    else if vibrationMax > 2.8 then Iso10816Classifier.B
    else Iso10816Classifier.A
  }

  /**
   * The risk zone is the classifier's zone for a large machine (group 3)
   * on a rigid foundation running between 1200 and 3600 rpm.
   */
  lemma SeverityZoneIsRigidGroup3Zone(v: real, rpm: real, powerKw: real)
    requires powerKw > 75.0 && 1200.0 < rpm <= 3600.0
    ensures SeverityZone(v) == Iso10816Classifier.ClassifyZone(v, rpm, powerKw, Rigid).zone
  {
  }

  /** Severity from the fusion confidence (percent) and the zone. */
  function SeverityLevel(confidence: real, zone: Iso10816Classifier.Zone): (r: Rating)
    ensures r == High <==> confidence > 90.0 && zone == Iso10816Classifier.C
    ensures r == Medium <==> confidence > 80.0 && (zone == Iso10816Classifier.B || zone == Iso10816Classifier.C) && r != High
    ensures zone == Iso10816Classifier.A || zone == Iso10816Classifier.D ==> r == Low
  {
    if confidence > 90.0 && zone == Iso10816Classifier.C then High
    else if confidence > 80.0 && (zone == Iso10816Classifier.B || zone == Iso10816Classifier.C) then Medium
    else Low
  }

  /** Probability of failure from the MTBF estimate. */
  function ProbabilityLevel(mtbfDays: nat): (r: Rating)
    ensures r == High <==> mtbfDays < 7
    ensures r == Medium <==> 7 <= mtbfDays < 30
    ensures r == Low <==> mtbfDays >= 30
  {
    if mtbfDays < 7 then High
    else if mtbfDays < 30 then Medium
    else Low
  }

  /** The nine cells of the matrix; every (severity, probability) pair has one, so the source's fallback is never taken. */
  function RiskMatrix(severity: Rating, probability: Rating): (c: RiskCell)
    ensures c.risk == CriticalRisk <==> severity == High && probability == High
    ensures c.risk == CriticalRisk <==> c.timeline == WithinHours(4)
    ensures c.risk == CriticalRisk <==> c.action == ImmediateShutdown
    ensures c.risk == HighRisk <==> c.action == CorrectiveMaintenance
    ensures c.risk == LowRisk <==> c.action == RoutineMonitoring
    ensures c.risk == LowRisk <==> RatingRank(severity) + RatingRank(probability) <= 1
    ensures var sum := RatingRank(severity) + RatingRank(probability);
      RiskRank(c.risk) == if sum == 0 then 0 else sum - 1
    ensures c.risk == HighRisk ==> c.timeline == WithinHours(24)
    ensures c.risk == MediumRisk ==>
      if severity == High then c.timeline == WithinHours(72) && c.action == ScheduledMaintenance
      else c.timeline == WithinDays(7) && c.action == PlannedMaintenance
    ensures c.risk == LowRisk ==>
      c.timeline == if severity == Low && probability == Low then WithinDays(90) else WithinDays(30)
  {
    match (severity, probability)
    case (High, High) => RiskCell(CriticalRisk, WithinHours(4), ImmediateShutdown)
    case (High, Medium) => RiskCell(HighRisk, WithinHours(24), CorrectiveMaintenance)
    case (High, Low) => RiskCell(MediumRisk, WithinHours(72), ScheduledMaintenance)
    case (Medium, High) => RiskCell(HighRisk, WithinHours(24), CorrectiveMaintenance)
    case (Medium, Medium) => RiskCell(MediumRisk, WithinDays(7), PlannedMaintenance)
    case (Medium, Low) => RiskCell(LowRisk, WithinDays(30), RoutineMonitoring)
    case (Low, High) => RiskCell(MediumRisk, WithinDays(7), PlannedMaintenance)
    case (Low, Medium) => RiskCell(LowRisk, WithinDays(30), RoutineMonitoring)
    case (Low, Low) => RiskCell(LowRisk, WithinDays(90), RoutineMonitoring)
  }

  /** Raising either the severity or the probability never lowers the risk. */
  lemma RiskMatrixMonotone(s1: Rating, p1: Rating, s2: Rating, p2: Rating)
    requires RatingRank(s1) <= RatingRank(s2) && RatingRank(p1) <= RatingRank(p2)
    ensures RiskRank(RiskMatrix(s1, p1).risk) <= RiskRank(RiskMatrix(s2, p2).risk)
  {
  }

  /** The matrix is symmetric in its risk level, though not in its actions. */
  lemma RiskMatrixSymmetricRisk(s: Rating, p: Rating)
    ensures RiskMatrix(s, p).risk == RiskMatrix(p, s).risk
  {
  }

  function MaxNat(a: nat, b: nat): nat
  {
    if a >= b then a else b
  }

  /**
   * The base MTBF in days. The table is looked up by the exact fault name,
   * so the two misalignment names miss its misalignment entry and take the
   * default of 90 days.
   */
  function BaseMtbf(d: Diagnosed): (days: nat)
    ensures 14 <= days <= 365
    ensures days == 365 <==> d == NoFaultDetected
    ensures d.Detected? && IsMisalignment(d.kind) ==> days == 90
  {
    match d
    case NoFaultDetected => 365
    case Detected(k) =>
      match k
      case ElectricalUnbalance => 45
      case MechanicalUnbalance => 60
      case BearingDefect => 21
      case Cavitation => 14
      case _ => 90
  }

  /** Zone C cuts the estimate to a third (at least 3 days), high zone B to a half (at least 7). */
  function VibrationAdjusted(mtbf: nat, vibrationMax: real): nat
  {
    if vibrationMax > 7.1 then MaxNat(mtbf / 3, 3)
    else if vibrationMax > 4.5 then MaxNat(mtbf / 2, 7)
    else mtbf
  }

  /** A bearing defect's HF acceleration overrides the estimate: stage 3 gives 3 days, stage 2+ gives 7. */
  function BearingAdjusted(mtbf: nat, d: Diagnosed, hf: real): nat
  {
    if d == Detected(BearingDefect) && hf > 1.5 then 3
    else if d == Detected(BearingDefect) && hf > 1.0 then 7
    else mtbf
  }

  /** Overheating halves the estimate (at least 2 days); a rise above 50 C takes two thirds (at least 3). */
  function TemperatureAdjusted(mtbf: nat, tempRise: real): nat
  {
    if tempRise > 60.0 then MaxNat(mtbf / 2, 2)
    else if tempRise > 50.0 then MaxNat(mtbf * 2 / 3, 3)
    else mtbf
  }

  /** The vibration reading the risk stage sees: the engine's maximum direction average, 0 when absent. */
  function VibrationMaxOf(m: Measurements): real
  {
    GetOr(m.vibrationMaxAvr, 0.0)
  }

  /** MTBF in days: the base for the fault, then the vibration, bearing and temperature adjustments. */
  function MtbfEstimate(d: Diagnosed, m: Measurements): (days: nat)
    ensures 2 <= days <= BaseMtbf(d)
    ensures d == Detected(BearingDefect) && m.hfPumpDe > 1.5 ==> days <= 3
    ensures d == Detected(BearingDefect) && m.hfPumpDe > 1.0 ==> days <= 7
    ensures d == Detected(BearingDefect) && m.hfPumpDe > 1.0 ==>
      days == TemperatureAdjusted(if m.hfPumpDe > 1.5 then 3 else 7, TempRise(m))
    ensures TempRise(m) <= 60.0 ==> days >= 3
    ensures VibrationMaxOf(m) <= 4.5 && TempRise(m) <= 50.0 && !(d == Detected(BearingDefect) && m.hfPumpDe > 1.0)
            ==> days == BaseMtbf(d)
  {
    var base := BaseMtbf(d);
    var afterVibration := VibrationAdjusted(base, VibrationMaxOf(m));
    assert 3 <= afterVibration <= base;
    var afterBearing := BearingAdjusted(afterVibration, d, m.hfPumpDe);
    assert 3 <= afterBearing <= base;
    TemperatureAdjusted(afterBearing, TempRise(m))
  }

  /**
   * The bearing override replaces the base and the vibration adjustment
   * outright: 3 days above 1.5 g and 7 days above 1.0 g when the bearing
   * is not overheating, 2 days for a stage 3 bearing with a rise above 60 C.
   */
  lemma BearingOverrideDays(m: Measurements)
    ensures m.hfPumpDe > 1.5 && TempRise(m) <= 50.0 ==> MtbfEstimate(Detected(BearingDefect), m) == 3
    ensures 1.0 < m.hfPumpDe <= 1.5 && TempRise(m) <= 50.0 ==> MtbfEstimate(Detected(BearingDefect), m) == 7
    ensures m.hfPumpDe > 1.5 && TempRise(m) > 60.0 ==> MtbfEstimate(Detected(BearingDefect), m) == 2
    ensures 1.0 < m.hfPumpDe <= 1.5 && 50.0 < TempRise(m) <= 60.0 ==> MtbfEstimate(Detected(BearingDefect), m) == 4
  {
  }

  lemma DivisionMonotone(a: nat, b: nat, k: nat)
    requires a <= b && k > 0
    ensures a / k <= b / k
  {
    var qa, qb := a / k, b / k;
    assert qa * k <= a;
    assert b < (qb + 1) * k;
  }

  /** A higher vibration reading never lengthens the estimate. */
  lemma MtbfFallsWithVibration(d: Diagnosed, m: Measurements, v1: real, v2: real)
    requires v1 <= v2
    ensures MtbfEstimate(d, m.(vibrationMaxAvr := Some(v2))) <= MtbfEstimate(d, m.(vibrationMaxAvr := Some(v1)))
  {
    var base := BaseMtbf(d);
    var a1, a2 := VibrationAdjusted(base, v1), VibrationAdjusted(base, v2);
    assert a2 <= a1 by {
      assert base / 3 <= base / 2;
    }
    var b1, b2 := BearingAdjusted(a1, d, m.hfPumpDe), BearingAdjusted(a2, d, m.hfPumpDe);
    assert b2 <= b1;
    TemperatureMonotone(b2, b1, TempRise(m));
  }

  lemma TemperatureMonotone(x: nat, y: nat, tempRise: real)
    requires x <= y
    ensures TemperatureAdjusted(x, tempRise) <= TemperatureAdjusted(y, tempRise)
  {
    DivisionMonotone(x, y, 2);
    assert x * 2 <= y * 2;
    DivisionMonotone(x * 2, y * 2, 3);
  }

  /** A hotter pump-side bearing never lengthens the estimate. */
  lemma MtbfFallsWithTemperature(d: Diagnosed, m: Measurements, t1: real, t2: real)
    requires t1 <= t2
    ensures MtbfEstimate(d, m.(tempPumpDe := t2)) <= MtbfEstimate(d, m.(tempPumpDe := t1))
  {
    var b := BearingAdjusted(VibrationAdjusted(BaseMtbf(d), VibrationMaxOf(m)), d, m.hfPumpDe);
    assert b >= 3 by {
      assert VibrationAdjusted(BaseMtbf(d), VibrationMaxOf(m)) >= 3;
    }
    assert b / 2 <= b * 2 / 3 by {
      DivisionMonotone(b * 3, b * 4, 6);
      assert b * 3 / 6 == b / 2;
      assert b * 4 / 6 == b * 2 / 3;
    }
  }

  /** The estimate as the source computes it, reassigning one variable stage by stage. */
  method EstimateMtbf(d: Diagnosed, m: Measurements) returns (mtbf: nat)
    ensures mtbf == MtbfEstimate(d, m)
  {
    mtbf := BaseMtbf(d);
    var vibrationMax := VibrationMaxOf(m);
    if vibrationMax > 7.1 {
      mtbf := MaxNat(mtbf / 3, 3);
    } else if vibrationMax > 4.5 {
      mtbf := MaxNat(mtbf / 2, 7);
    }
    if d == Detected(BearingDefect) {
      var hf := m.hfPumpDe;
      if hf > 1.5 {
        mtbf := 3;
      } else if hf > 1.0 {
        mtbf := 7;
      }
    }
    var tempRise := m.tempPumpDe - Ambient;
    if tempRise > 60.0 {
      mtbf := MaxNat(mtbf / 2, 2);
    } else if tempRise > 50.0 {
      mtbf := MaxNat(mtbf * 2 / 3, 3);
    }
  }

  /** Recommendation priorities, including the engine's own IMMEDIATE and ROUTINE. */
  datatype Priority =
    | CriticalPriority
    | HighPriority
    | MediumPriority
    | MonitorPriority
    | ImmediatePriority
    | RoutinePriority

  datatype Recommendation = Recommendation(priority: Priority, timeline: Timeline, action: string, standard: string)

  /** The monitoring recommendation every plan carries: daily at critical or high risk, weekly otherwise. */
  function Monitoring(risk: RiskLevel): (r: Recommendation)
    ensures r.priority == MonitorPriority
    ensures r.timeline == Daily <==> risk == CriticalRisk || risk == HighRisk
    ensures r.timeline == Weekly <==> !(risk == CriticalRisk || risk == HighRisk)
  {
    Recommendation(MonitorPriority, if risk == CriticalRisk || risk == HighRisk then Daily else Weekly,
      "Monitor vibration and temperature trends", "ISO 13373-3 Clause 7.2")
  }

  /** The corrective action put in front of the plan for each fault. */
  function LeadAction(k: FaultType, mtbfDays: nat, risk: RiskLevel): (r: Recommendation)
    ensures r.priority == CriticalPriority || r.priority == HighPriority
    ensures r.priority == CriticalPriority <==>
      (k == ElectricalUnbalance && risk == CriticalRisk) || (k == BearingDefect && mtbfDays < 7)
  {
    match k
    case ElectricalUnbalance =>
      Recommendation(if risk == CriticalRisk then CriticalPriority else HighPriority,
        if risk == CriticalRisk then WithinHours(4) else WithinHours(24),
        "Correct voltage imbalance to <2%", "IEC 60034-1 \U{00A7}6.3")
    case MechanicalUnbalance =>
      Recommendation(HighPriority, WithinHours(72), "Schedule dynamic balancing", "ISO 1940-1:2003 G2.5")
    case AngularMisalignment =>
      Recommendation(HighPriority, WithinHours(72), "Re-align coupling", "API 671 Clause 5.3")
    case ParallelMisalignment =>
      Recommendation(HighPriority, WithinHours(72), "Re-align coupling", "API 671 Clause 5.3")
    case BearingDefect =>
      Recommendation(if mtbfDays < 7 then CriticalPriority else HighPriority,
        WithinDays(if mtbfDays <= 14 then mtbfDays else 14),
        "Schedule bearing replacement", "ISO 15243:2017 Table 2")
    case Cavitation =>
      Recommendation(HighPriority, WithinHours(24), "Adjust flow control valve", "API 610 Clause 7.3.2")
  }

  /** The medium-priority follow-up appended after the monitoring entry. */
  function FollowUp(k: FaultType): (r: Recommendation)
    ensures r.priority == MediumPriority
    ensures r.timeline == (if k == BearingDefect then WithinDays(30) else WithinDays(7))
  {
    match k
    case ElectricalUnbalance =>
      Recommendation(MediumPriority, WithinDays(7), "Verify motor terminal connections", "NEMA MG-1 \U{00A7}14.32")
    case MechanicalUnbalance =>
      Recommendation(MediumPriority, WithinDays(7), "Inspect impeller for fouling or damage", "API 610 Clause 8.4.3")
    case AngularMisalignment =>
      Recommendation(MediumPriority, WithinDays(7), "Inspect coupling and foundation bolts", "API 686 Chapter 4")
    case ParallelMisalignment =>
      Recommendation(MediumPriority, WithinDays(7), "Inspect coupling and foundation bolts", "API 686 Chapter 4")
    case BearingDefect =>
      Recommendation(MediumPriority, WithinDays(30), "Check lubrication system", "ISO 12922")
    case Cavitation =>
      Recommendation(MediumPriority, WithinDays(7), "Check NPSHa margin", "API 610 Clause 7.3.2")
  }

  /** The action plan: lead action, monitoring, follow-up for a fault; monitoring alone otherwise. */
  function Recommendations(d: Diagnosed, mtbfDays: nat, risk: RiskLevel): (rs: seq<Recommendation>)
    ensures d == NoFaultDetected ==> rs == [Monitoring(risk)]
    ensures d.Detected? ==> |rs| == 3 && rs[1] == Monitoring(risk)
    ensures d.Detected? ==> rs[0] == LeadAction(d.kind, mtbfDays, risk) && rs[2] == FollowUp(d.kind)
    ensures forall i :: 0 <= i < |rs| ==> (rs[i].priority == MonitorPriority <==> rs[i] == Monitoring(risk))
  {
    match d
    case NoFaultDetected => [Monitoring(risk)]
    case Detected(k) => [LeadAction(k, mtbfDays, risk), Monitoring(risk), FollowUp(k)]
  }

  /** A bearing defect's replacement is due within the MTBF, capped at 14 days, and critical below a week. */
  lemma BearingReplacementTimeline(mtbfDays: nat, risk: RiskLevel)
    ensures Recommendations(Detected(BearingDefect), mtbfDays, risk)[0].timeline == WithinDays(if mtbfDays <= 14 then mtbfDays else 14)
    ensures Recommendations(Detected(BearingDefect), mtbfDays, risk)[0].priority == CriticalPriority <==> mtbfDays < 7
  {
  }

  /** The plan as the source builds it: monitoring first, the lead action inserted at the front, the follow-up appended. */
  method GenerateRecommendations(d: Diagnosed, mtbfDays: nat, risk: RiskLevel) returns (rs: seq<Recommendation>)
    ensures rs == Recommendations(d, mtbfDays, risk)
  {
    rs := [Recommendation(MonitorPriority, if risk == CriticalRisk || risk == HighRisk then Daily else Weekly,
      "Monitor vibration and temperature trends", "ISO 13373-3 Clause 7.2")];
    if d == Detected(ElectricalUnbalance) {
      rs := [Recommendation(if risk == CriticalRisk then CriticalPriority else HighPriority,
        if risk == CriticalRisk then WithinHours(4) else WithinHours(24),
        "Correct voltage imbalance to <2%", "IEC 60034-1 \U{00A7}6.3")] + rs;
      rs := rs + [Recommendation(MediumPriority, WithinDays(7), "Verify motor terminal connections", "NEMA MG-1 \U{00A7}14.32")];
    } else if d == Detected(MechanicalUnbalance) {
      rs := [Recommendation(HighPriority, WithinHours(72), "Schedule dynamic balancing", "ISO 1940-1:2003 G2.5")] + rs;
      rs := rs + [Recommendation(MediumPriority, WithinDays(7), "Inspect impeller for fouling or damage", "API 610 Clause 8.4.3")];
    } else if d.Detected? && IsMisalignment(d.kind) {
      rs := [Recommendation(HighPriority, WithinHours(72), "Re-align coupling", "API 671 Clause 5.3")] + rs;
      rs := rs + [Recommendation(MediumPriority, WithinDays(7), "Inspect coupling and foundation bolts", "API 686 Chapter 4")];
    } else if d == Detected(BearingDefect) {
      rs := [Recommendation(if mtbfDays < 7 then CriticalPriority else HighPriority,
        WithinDays(if mtbfDays <= 14 then mtbfDays else 14),
        "Schedule bearing replacement", "ISO 15243:2017 Table 2")] + rs;
      rs := rs + [Recommendation(MediumPriority, WithinDays(30), "Check lubrication system", "ISO 12922")];
    } else if d == Detected(Cavitation) {
      rs := [Recommendation(HighPriority, WithinHours(24), "Adjust flow control valve", "API 610 Clause 7.3.2")] + rs;
      rs := rs + [Recommendation(MediumPriority, WithinDays(7), "Check NPSHa margin", "API 610 Clause 7.3.2")];
    }
    if d.Detected? {
      assert rs == [LeadAction(d.kind, mtbfDays, risk), Monitoring(risk), FollowUp(d.kind)];
    }
  }

  datatype RiskResult = RiskResult(
    riskLevel: RiskLevel,
    severityLevel: Rating,
    probabilityLevel: Rating,
    actionTimeline: Timeline,
    actionPriority: ActionPriority,
    mtbfDays: nat,
    recommendations: seq<Recommendation>,
    standard: string)

  /** Risk and action plan for the fused diagnosis. */
  function AssessRisk(diagnosis: BayesianFusion.FusionResult, m: Measurements): (r: RiskResult)
    ensures r.mtbfDays == MtbfEstimate(diagnosis.primaryFault, m)
    ensures r.severityLevel == SeverityLevel(diagnosis.primaryConfidence, SeverityZone(VibrationMaxOf(m)))
    ensures r.probabilityLevel == ProbabilityLevel(r.mtbfDays)
    ensures var c := RiskMatrix(r.severityLevel, r.probabilityLevel);
      r.riskLevel == c.risk && r.actionTimeline == c.timeline && r.actionPriority == c.action
    ensures r.riskLevel == CriticalRisk <==> r.severityLevel == High && r.probabilityLevel == High
    ensures r.riskLevel == CriticalRisk <==> r.actionTimeline == WithinHours(4)
    ensures r.recommendations == Recommendations(diagnosis.primaryFault, r.mtbfDays, r.riskLevel)
  {
    var severity := SeverityLevel(diagnosis.primaryConfidence, SeverityZone(VibrationMaxOf(m)));
    var mtbf := MtbfEstimate(diagnosis.primaryFault, m);
    var probability := ProbabilityLevel(mtbf);
    var cell := RiskMatrix(severity, probability);
    RiskResult(cell.risk, severity, probability, cell.timeline, cell.action, mtbf,
      Recommendations(diagnosis.primaryFault, mtbf, cell.risk),
      "ISO 45001:2018 Annex A + API 581 RBI Methodology")
  }

  /**
   * Critical risk needs a confidence above 90 %, a zone C reading and an
   * MTBF under a week; in particular a zone D reading is rated low severity
   * and never reaches critical risk.
   */
  lemma CriticalRiskConditions(diagnosis: BayesianFusion.FusionResult, m: Measurements)
    requires AssessRisk(diagnosis, m).riskLevel == CriticalRisk
    ensures diagnosis.primaryConfidence > 90.0
    ensures 7.1 < VibrationMaxOf(m) <= 11.2
    ensures AssessRisk(diagnosis, m).mtbfDays < 7
  {
  }

  lemma ZoneDRatedLowSeverity(diagnosis: BayesianFusion.FusionResult, m: Measurements)
    requires VibrationMaxOf(m) > 11.2
    ensures AssessRisk(diagnosis, m).severityLevel == Low
    ensures AssessRisk(diagnosis, m).riskLevel != CriticalRisk
  {
  }
}
