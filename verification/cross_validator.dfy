/**
 * Level 4 of the diagnostic engine: every fault candidate is checked against three
 * further readings that the fault type predicts.  Each passing check adds
 * a weight to a consistency score in [0, 1]; the score scales the
 * candidate's confidence and decides whether it counts as validated.
 */
module CrossValidator {
  import opened PumpData
  import opened Ranking
  import opened FftAnalyzer

  /** What a consistency check looks at. */
  datatype Probe =
    | VoltageImbalanceHigh      // imbalance above 2%
    | VoltageImbalanceNormal    // imbalance below 2%
    | TempGradientNormal        // DE/NDE gradient below 15 deg C
    | TempGradientPresent       // DE/NDE gradient above 10 deg C
    | PhaseUnstable             // phase instability above 20 deg
    | PhaseStable               // phase instability below 10 deg
    | DisplacementCorrelated    // displacement matches velocity / (2 pi f)
    | HfHigh                    // HF band above 0.7 g
    | TempRiseHigh              // rise over ambient above 40 deg C
    | Peak2RatioHigh            // 2X/1X above 0.5
    | VibrationPatternMatches   // axial vs vertical pattern fits the misalignment subtype

  /**
   * One check: its weight is added when it passes; when it fails it is
   * either an inconsistency or, for a neutral check, only a remark.
   */
  datatype Test = Test(probe: Probe, weight: real, passed: bool, neutralOnFail: bool)

  /** A line of consistency evidence: a confirmation or a neutral remark. */
  datatype Note = Confirmed(probe: Probe) | Remark(probe: Probe)

  datatype Assessment = Assessment(score: real, evidence: seq<Note>, inconsistencies: seq<Probe>)

  /** Scoring one check, as each `if` of the source does. */
  function Step(a: Assessment, t: Test): (r: Assessment)
    ensures |r.evidence| + |r.inconsistencies| == |a.evidence| + |a.inconsistencies| + 1
    ensures r.score == a.score + (if t.passed then t.weight else 0.0)
    ensures r.inconsistencies != a.inconsistencies <==> !t.passed && !t.neutralOnFail
  {
    if t.passed then Assessment(a.score + t.weight, a.evidence + [Confirmed(t.probe)], a.inconsistencies)
    else if t.neutralOnFail then Assessment(a.score, a.evidence + [Remark(t.probe)], a.inconsistencies)
    else Assessment(a.score, a.evidence, a.inconsistencies + [t.probe])
  }

  function Credit(t: Test): real
  {
    if t.passed then t.weight else 0.0
  }

  function TotalWeight(ts: seq<Test>): real
  {
    if ts == [] then 0.0 else TotalWeight(ts[..|ts| - 1]) + ts[|ts| - 1].weight
  }

  ghost predicate NonNegativeWeights(ts: seq<Test>)
  {
    forall i :: 0 <= i < |ts| ==> ts[i].weight >= 0.0
  }

  /** The checks scored in order, starting from a score of 0 and empty lists. */
  function Assess(ts: seq<Test>): (a: Assessment)
    ensures |a.evidence| + |a.inconsistencies| == |ts|
    ensures NonNegativeWeights(ts) ==> 0.0 <= a.score <= TotalWeight(ts)
  {
    if ts == [] then Assessment(0.0, [], [])
    else
      var init := ts[..|ts| - 1];
      assert NonNegativeWeights(ts) ==> NonNegativeWeights(init);
      Step(Assess(init), ts[|ts| - 1])
  }

  /** With three checks the score is the sum of the credits of those that pass. */
  lemma AssessThree(t1: Test, t2: Test, t3: Test)
    ensures Assess([t1, t2, t3]) == Step(Step(Step(Assessment(0.0, [], []), t1), t2), t3)
    ensures Assess([t1, t2, t3]).score == Credit(t1) + Credit(t2) + Credit(t3)
  {
    var s3, s2, s1 := [t1, t2, t3], [t1, t2], [t1];
    assert s3[..|s3| - 1] == s2 && s2[..|s2| - 1] == s1 && s1[..|s1| - 1] == [];
    assert Assess(s1) == Step(Assess([]), t1);
    assert Assess(s2) == Step(Assess(s1), t2);
    assert Assess(s3) == Step(Assess(s2), t3);
  }

  function PassCount(ts: seq<Test>): nat
  {
    if ts == [] then 0 else PassCount(ts[..|ts| - 1]) + (if ts[|ts| - 1].passed then 1 else 0)
  }

  /**
   * The phase instability as each branch reads it: absent means 30 deg in
   * the electrical branch and 5 deg in the mechanical one.
   */
  function PhaseInstability(m: Measurements, default: real): real
  {
    GetOr(m.phaseInstability, default)
  }

  /** Displacement (um) within half of the value expected from the pump vertical velocity at 1X. */
  predicate DisplacementCorrelates(m: Measurements)
    requires m.motorRpm != 0.0
  {
    var freqHz := m.motorRpm / 60.0;
    var expected := PumpVerticalAvg(m) / (2.0 * 3.1416 * freqHz) * 1000.0;
    Abs(m.displacementPeak - expected) < expected * 0.5
  }

  /**
   * The checks of a fault type divide by the mean voltage (electrical,
   * mechanical, bearing) and by the shaft frequency (mechanical).
   */
  predicate CanValidate(k: FaultType, m: Measurements)
  {
    && (UsesVoltageImbalance(k) ==> VoltageDefined(m))
    && (k == MechanicalUnbalance ==> m.motorRpm != 0.0)
  }

  /** The three checks of each fault type, in the source's order; a cavitation candidate has none. */
  function ConsistencyTests(k: FaultType, m: Measurements): (ts: seq<Test>)
    requires CanValidate(k, m)
    ensures k == Cavitation <==> ts == []
    ensures k != Cavitation ==> |ts| == 3 && ts[0].weight == 0.4 && ts[1].weight == 0.3 && ts[2].weight == 0.3
    ensures NonNegativeWeights(ts)
  {
    match k
    case ElectricalUnbalance =>
      [Test(VoltageImbalanceHigh, 0.4, VoltageImbalance(m) > 2.0, false),
       Test(TempGradientNormal, 0.3, TempGradient(m) < 15.0, false),
       Test(PhaseUnstable, 0.3, PhaseInstability(m, 30.0) > 20.0, false)]
    case MechanicalUnbalance =>
      [Test(VoltageImbalanceNormal, 0.4, VoltageImbalance(m) < 2.0, false),
       Test(PhaseStable, 0.3, PhaseInstability(m, 5.0) < 10.0, false),
       Test(DisplacementCorrelated, 0.3, DisplacementCorrelates(m), false)]
    case BearingDefect =>
      [Test(HfHigh, 0.4, m.hfPumpDe > 0.7, false),
       Test(TempRiseHigh, 0.3, TempRise(m) > 40.0, true),
       Test(VoltageImbalanceNormal, 0.3, VoltageImbalance(m) < 2.0, false)]
    case AngularMisalignment =>
      [Test(Peak2RatioHigh, 0.4, Peak2Ratio(m) > 0.5, false),
       Test(VibrationPatternMatches, 0.3, PumpAxialAvg(m) > PumpVerticalAvg(m), false),
       Test(TempGradientPresent, 0.3, TempGradient(m) > 10.0, true)]
    case ParallelMisalignment =>
      [Test(Peak2RatioHigh, 0.4, Peak2Ratio(m) > 0.5, false),
       Test(VibrationPatternMatches, 0.3, PumpAxialAvg(m) < PumpVerticalAvg(m), false),
       Test(TempGradientPresent, 0.3, TempGradient(m) > 10.0, true)]
    case Cavitation => []
  }

  lemma ThreeChecksWeighOne(ts: seq<Test>)
    ensures |ts| == 3 && ts[0].weight == 0.4 && ts[1].weight == 0.3 && ts[2].weight == 0.3 ==> TotalWeight(ts) == 1.0
  {
    if |ts| == 3 {
      assert ts[..|ts| - 1] == ts[..2] && ts[..2][..1] == ts[..1] && ts[..1][..0] == [];
      assert TotalWeight(ts[..1]) == ts[0].weight;
      assert TotalWeight(ts[..2]) == TotalWeight(ts[..1]) + ts[1].weight;
    }
  }

  /** The consistency of a candidate: its checks scored in order. */
  function Consistency(k: FaultType, m: Measurements): (a: Assessment)
    requires CanValidate(k, m)
    ensures 0.0 <= a.score <= 1.0
    ensures k == Cavitation ==> a == Assessment(0.0, [], [])
  {
    var ts := ConsistencyTests(k, m);
    ThreeChecksWeighOne(ts);
    Assess(ts)
  }

  /**
   * An electrical-unbalance candidate earns 0.4 for a voltage imbalance
   * above 2 %, 0.3 for a pump temperature gradient below 15 C and 0.3 for
   * a phase instability above 20 deg (30 deg when not measured).
   */
  lemma ElectricalScore(m: Measurements)
    requires VoltageDefined(m)
    ensures Consistency(ElectricalUnbalance, m).score ==
      (if VoltageImbalance(m) > 2.0 then 0.4 else 0.0)
      + (if TempGradient(m) < 15.0 then 0.3 else 0.0)
      + (if GetOr(m.phaseInstability, 30.0) > 20.0 then 0.3 else 0.0)
  {
    var ts := ConsistencyTests(ElectricalUnbalance, m);
    AssessThree(ts[0], ts[1], ts[2]);
    assert ts == [ts[0], ts[1], ts[2]];
  }

  /** With weights 0.4, 0.3 and 0.3, a score of at least 0.6 means at least two of three checks passed. */
  lemma ScoreThresholdIsTwoOfThree(t1: Test, t2: Test, t3: Test)
    requires t1.weight == 0.4 && t2.weight == 0.3 && t3.weight == 0.3
    ensures Assess([t1, t2, t3]).score >= 0.6 <==> PassCount([t1, t2, t3]) >= 2
  {
    AssessThree(t1, t2, t3);
    var s3, s2, s1 := [t1, t2, t3], [t1, t2], [t1];
    assert s3[..|s3| - 1] == s2 && s2[..|s2| - 1] == s1 && s1[..|s1| - 1] == [];
    assert PassCount(s1) == (if t1.passed then 1 else 0);
    assert PassCount(s2) == PassCount(s1) + (if t2.passed then 1 else 0);
  }

  /** A fault type with checks is validated exactly when at least two of its three checks pass. */
  lemma ValidatedIffTwoChecksPass(k: FaultType, m: Measurements)
    requires CanValidate(k, m) && k != Cavitation
    ensures Consistency(k, m).score >= 0.6 <==> PassCount(ConsistencyTests(k, m)) >= 2
  {
    var ts := ConsistencyTests(k, m);
    assert ts == [ts[0], ts[1], ts[2]];
    ScoreThresholdIsTwoOfThree(ts[0], ts[1], ts[2]);
  }

  /** Equal axial and vertical averages earn no pattern credit for either misalignment subtype. */
  lemma EqualAveragesEarnNoPatternCredit(k: FaultType, m: Measurements)
    requires IsMisalignment(k) && PumpAxialAvg(m) == PumpVerticalAvg(m)
    ensures Consistency(k, m).score <= 0.7
    ensures VibrationPatternMatches in Consistency(k, m).inconsistencies
  {
    var ts := ConsistencyTests(k, m);
    AssessThree(ts[0], ts[1], ts[2]);
    assert ts == [ts[0], ts[1], ts[2]];
  }

  /** The temperature checks of the bearing and misalignment types never record an inconsistency. */
  lemma TemperatureChecksAreNeutral(k: FaultType, m: Measurements)
    requires k == BearingDefect || IsMisalignment(k)
    requires CanValidate(k, m)
    ensures TempRiseHigh !in Consistency(k, m).inconsistencies
    ensures TempGradientPresent !in Consistency(k, m).inconsistencies
  {
    var ts := ConsistencyTests(k, m);
    AssessThree(ts[0], ts[1], ts[2]);
    assert ts == [ts[0], ts[1], ts[2]];
  }

  datatype ValidatedFault = ValidatedFault(
    kind: FaultType,
    originalConfidence: real,
    consistencyScore: real,
    finalConfidence: real,
    evidence: seq<Note>,
    inconsistencies: seq<Probe>,
    isValidated: bool,
    standard: string,
    severity: Severity)

  function FinalConfidence(v: ValidatedFault): real
  {
    v.finalConfidence
  }

  /** The confidence scaled by 0.7 + 0.3 x score, capped at 0.95. */
  function AdjustedConfidence(original: real, score: real): (c: real)
    requires 0.0 <= score <= 1.0
    ensures c <= 0.95
    ensures original >= 0.0 ==> 0.0 <= c <= original
    ensures original >= 0.0 ==> c >= Min(0.7 * original, 0.95)
  {
    var factor := 0.7 + score * 0.3;
    assert 0.7 <= factor <= 1.0;
    assert original >= 0.0 ==> original * factor <= original by {
      if original >= 0.0 {
        assert original * (1.0 - factor) >= 0.0;
      }
    }
    assert original >= 0.0 ==> original * factor >= 0.7 * original by {
      if original >= 0.0 {
        assert original * (factor - 0.7) >= 0.0;
      }
    }
    Min(original * factor, 0.95)
  }

  /** A better score never lowers a non-negative confidence. */
  lemma AdjustedConfidenceMonotone(original: real, s1: real, s2: real)
    requires original >= 0.0 && 0.0 <= s1 <= s2 <= 1.0
    ensures AdjustedConfidence(original, s1) <= AdjustedConfidence(original, s2)
  {
    assert original * (0.7 + s1 * 0.3) <= original * (0.7 + s2 * 0.3) by {
      assert original * (s2 - s1) * 0.3 >= 0.0;
    }
  }

  /** The record the validator keeps for one detected fault. */
  function ValidateFault(f: FaultCandidate, m: Measurements): (v: ValidatedFault)
    requires CanValidate(f.kind, m)
    ensures v.kind == f.kind && v.originalConfidence == f.confidence
    ensures var a := Consistency(f.kind, m);
      v.consistencyScore == a.score && v.evidence == a.evidence && v.inconsistencies == a.inconsistencies
    ensures v.finalConfidence == AdjustedConfidence(f.confidence, v.consistencyScore)
    ensures v.standard == f.standard && v.severity == f.severity
    ensures 0.0 <= v.consistencyScore <= 1.0
    ensures v.finalConfidence <= 0.95
    ensures f.confidence >= 0.0 ==> v.finalConfidence <= f.confidence
    ensures v.isValidated <==> v.consistencyScore >= 0.6
    ensures f.kind == Cavitation ==> v.consistencyScore == 0.0 && !v.isValidated
  {
    var a := Consistency(f.kind, m);
    ValidatedFault(f.kind, f.confidence, a.score, AdjustedConfidence(f.confidence, a.score),
      a.evidence, a.inconsistencies, a.score >= 0.6, f.standard, f.severity)
  }

  /**
   * A detected fault comes out validated exactly when it is not cavitation
   * and at least two of its three consistency checks pass.
   */
  lemma RecordValidatedIffTwoChecksPass(f: FaultCandidate, m: Measurements)
    requires CanValidate(f.kind, m)
    ensures ValidateFault(f, m).isValidated <==>
      f.kind != Cavitation && PassCount(ConsistencyTests(f.kind, m)) >= 2
  {
    if f.kind != Cavitation {
      ValidatedIffTwoChecksPass(f.kind, m);
    }
  }

  ghost predicate AllValidatable(faults: seq<FaultCandidate>, m: Measurements)
  {
    forall i :: 0 <= i < |faults| ==> CanValidate(faults[i].kind, m)
  }

  /** One validated record per candidate, in input order. */
  function MapValidate(faults: seq<FaultCandidate>, m: Measurements): (vs: seq<ValidatedFault>)
    requires AllValidatable(faults, m)
    ensures |vs| == |faults|
    ensures forall i :: 0 <= i < |faults| ==> vs[i] == ValidateFault(faults[i], m)
  {
    if faults == [] then []
    else
      var init := faults[..|faults| - 1];
      assert AllValidatable(init, m);
      MapValidate(init, m) + [ValidateFault(faults[|faults| - 1], m)]
  }

  /** The cross-validator's result: the validated records sorted by non-increasing final confidence. */
  function CrossValidated(faults: seq<FaultCandidate>, m: Measurements): (vs: seq<ValidatedFault>)
    requires AllValidatable(faults, m)
    ensures |vs| == |faults|
    ensures SortedDesc(vs, FinalConfidence)
    ensures multiset(vs) == multiset(MapValidate(faults, m))
  {
    SortDesc(MapValidate(faults, m), FinalConfidence)
  }

  /** Every candidate's record is in the result, and every record in it comes from some candidate. */
  lemma CrossValidatedMembers(faults: seq<FaultCandidate>, m: Measurements, v: ValidatedFault)
    requires AllValidatable(faults, m)
    ensures v in CrossValidated(faults, m) <==> exists i :: 0 <= i < |faults| && v == ValidateFault(faults[i], m)
  {
    var mapped := MapValidate(faults, m);
    SortDescMembers(mapped, FinalConfidence, v);
    if v in mapped {
      var i :| 0 <= i < |mapped| && mapped[i] == v;
      assert v == ValidateFault(faults[i], m);
    }
  }

  /** The detector's candidates can always be cross-validated. */
  lemma FftSignaturesValidatable(m: Measurements)
    requires VoltageDefined(m)
    ensures AllValidatable(FftSignatures(m), m)
  {
    var fs := FftSignatures(m);
    forall i | 0 <= i < |fs|
      ensures CanValidate(fs[i].kind, m)
    {
      if fs[i].kind == MechanicalUnbalance {
        assert Reported(fs, MechanicalUnbalance);
        MechanicalNeedsPositiveSpeed(m);
      }
    }
  }

  /** The per-fault scoring as the source runs it: the score and both lists updated check by check. */
  method ScoreFault(k: FaultType, m: Measurements) returns (a: Assessment)
    requires CanValidate(k, m)
    ensures a == Consistency(k, m)
  {
    a := Assessment(0.0, [], []);
    var ts := ConsistencyTests(k, m);
    if k != Cavitation {
      AssessThree(ts[0], ts[1], ts[2]);
      assert ts == [ts[0], ts[1], ts[2]];
      a := Step(a, ts[0]);
      a := Step(a, ts[1]);
      a := Step(a, ts[2]);
    }
  }

  /** The body of the source's loop for one candidate: score it, adjust and cap its confidence. */
  method ValidateOne(fault: FaultCandidate, m: Measurements) returns (record: ValidatedFault)
    requires CanValidate(fault.kind, m)
    ensures record == ValidateFault(fault, m)
  {
    var a := ScoreFault(fault.kind, m);
    var adjusted := fault.confidence * (0.7 + a.score * 0.3);
    record := ValidatedFault(fault.kind, fault.confidence, a.score, Min(adjusted, 0.95),
      a.evidence, a.inconsistencies, a.score >= 0.6, fault.standard, fault.severity);
  }

  lemma MapValidateExtend(faults: seq<FaultCandidate>, m: Measurements, i: nat)
    requires AllValidatable(faults, m) && i < |faults|
    ensures AllValidatable(faults[..i + 1], m)
    ensures MapValidate(faults[..i + 1], m) == MapValidate(faults[..i], m) + [ValidateFault(faults[i], m)]
  {
    assert faults[..i + 1][..i] == faults[..i];
  }

  /** The cross-validator as the source runs it: one record appended per candidate, then a stable sort. */
  method CrossValidateFaults(faults: seq<FaultCandidate>, m: Measurements) returns (validated: seq<ValidatedFault>)
    requires AllValidatable(faults, m)
    ensures validated == CrossValidated(faults, m)
  {
    validated := [];
    var i := 0;
    while i < |faults|
      invariant 0 <= i <= |faults|
      invariant AllValidatable(faults[..i], m)
      invariant validated == MapValidate(faults[..i], m)
    {
      var record := ValidateOne(faults[i], m);
      validated := validated + [record];
      MapValidateExtend(faults, m, i);
      i := i + 1;
    }
    assert faults[..i] == faults;
    validated := SortDesc(validated, FinalConfidence);
  }
}
