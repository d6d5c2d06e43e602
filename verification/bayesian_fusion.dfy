/**
 * Level 5 of the diagnostic engine: for every validated fault, the likelihood is the
 * product of the conditional-probability-table entries of the evidence
 * that holds, the posterior is that likelihood in percent capped at 95, and
 * the faults are ranked by posterior to pick the primary diagnosis.
 */
module BayesianFusion {
  import opened PumpData
  import opened Ranking
  import CrossValidator

  /** The columns of the conditional probability table. */
  datatype Condition =
    | TwoLfDominant
    | VoltageImbalanceAbove2
    | VoltageImbalanceBelow2
    | PhaseUnstable
    | PhaseStable
    | HfNormal
    | HfHigh
    | TempNormal
    | TempRiseHigh
    | OneXDominant
    | OneXNotDominant
    | DisplacementCorrelated
    | BpfoPeak
    | TempGradientHigh
    | TwoXDominant
    | AxialDominant
    | TempGradientPresent

  /** The rows of the table; the misalignment row is present but no branch reads it. */
  datatype CptRow = ElectricalRow | MechanicalRow | BearingRow | MisalignmentRow

  /** P(evidence | fault) for each row. */
  function Cpt(row: CptRow): map<Condition, real>
  {
    match row
    case ElectricalRow =>
      map[TwoLfDominant := 0.95, VoltageImbalanceAbove2 := 0.92, PhaseUnstable := 0.88,
          HfNormal := 0.85, TempNormal := 0.80, OneXNotDominant := 0.75]
    case MechanicalRow =>
      map[OneXDominant := 0.94, PhaseStable := 0.90, VoltageImbalanceBelow2 := 0.85,
          HfNormal := 0.80, TempNormal := 0.75, DisplacementCorrelated := 0.70]
    case BearingRow =>
      map[HfHigh := 0.96, BpfoPeak := 0.93, TempRiseHigh := 0.90,
          VoltageImbalanceBelow2 := 0.85, OneXNotDominant := 0.80, TempGradientHigh := 0.75]
    case MisalignmentRow =>
      map[TwoXDominant := 0.92, AxialDominant := 0.88, VoltageImbalanceBelow2 := 0.85,
          TempGradientPresent := 0.80, PhaseUnstable := 0.75]
  }

  /** Every table entry is a probability in (0, 1]. */
  lemma CptEntriesAreProbabilities(row: CptRow, c: Condition)
    requires c in Cpt(row)
    ensures 0.0 < Cpt(row)[c] <= 1.0
  {
    match row
    case ElectricalRow =>
    case MechanicalRow =>
    case BearingRow =>
    case MisalignmentRow =>
  }

  /** One evidence test: the table entry it contributes and whether it holds. */
  datatype Factor = Factor(condition: Condition, weight: real, holds: bool)

  function Likelihood(fs: seq<Factor>): real
  {
    if fs == [] then 1.0
    else
      var l := Likelihood(fs[..|fs| - 1]);
      var f := fs[|fs| - 1];
      if f.holds then l * f.weight else l
  }

  /** The conditions that held, in the order they were tested. */
  function EvidenceOf(fs: seq<Factor>): seq<Condition>
  {
    if fs == [] then []
    else
      var e := EvidenceOf(fs[..|fs| - 1]);
      var f := fs[|fs| - 1];
      if f.holds then e + [f.condition] else e
  }

  ghost predicate ProbabilityWeights(fs: seq<Factor>)
  {
    forall i :: 0 <= i < |fs| ==> 0.0 < fs[i].weight <= 1.0
  }

  /** A product of probabilities starting from 1.0 stays in (0, 1]. */
  lemma {:induction false} LikelihoodBounds(fs: seq<Factor>)
    requires ProbabilityWeights(fs)
    ensures 0.0 < Likelihood(fs) <= 1.0
  {
    if fs != [] {
      var init := fs[..|fs| - 1];
      assert ProbabilityWeights(init);
      LikelihoodBounds(init);
      var l, f := Likelihood(init), fs[|fs| - 1];
      if f.holds {
        assert l * f.weight <= l * 1.0;
        assert l * f.weight > 0.0;
      }
    }
  }

  /** One more test never raises the likelihood. */
  lemma FurtherEvidenceNeverRaises(fs: seq<Factor>, f: Factor)
    requires ProbabilityWeights(fs) && 0.0 < f.weight <= 1.0
    ensures Likelihood(fs + [f]) <= Likelihood(fs)
  {
    var s := fs + [f];
    assert s[..|s| - 1] == fs;
    LikelihoodBounds(fs);
    var l := Likelihood(fs);
    if f.holds {
      assert l * f.weight <= l * 1.0;
    }
  }

  /** The table entries of a list of conditions multiplied together. */
  function CptProduct(table: map<Condition, real>, cs: seq<Condition>): real
    requires forall i :: 0 <= i < |cs| ==> cs[i] in table
  {
    if cs == [] then 1.0 else CptProduct(table, cs[..|cs| - 1]) * table[cs[|cs| - 1]]
  }

  ghost predicate DrawnFrom(fs: seq<Factor>, table: map<Condition, real>)
  {
    forall i :: 0 <= i < |fs| ==> fs[i].condition in table && fs[i].weight == table[fs[i].condition]
  }

  /**
   * Each multiplication is paired with one evidence entry: the likelihood
   * is exactly the product of the table entries of the recorded evidence.
   */
  lemma {:induction false} LikelihoodMatchesEvidence(fs: seq<Factor>, table: map<Condition, real>)
    requires DrawnFrom(fs, table)
    ensures forall i :: 0 <= i < |EvidenceOf(fs)| ==> EvidenceOf(fs)[i] in table
    ensures Likelihood(fs) == CptProduct(table, EvidenceOf(fs))
  {
    if fs != [] {
      var init := fs[..|fs| - 1];
      assert DrawnFrom(init, table);
      LikelihoodMatchesEvidence(init, table);
      var e := EvidenceOf(init);
      var f := fs[|fs| - 1];
      if f.holds {
        var e' := e + [f.condition];
        assert e'[..|e'| - 1] == e;
      }
    }
  }

  /** The bearing branch's BPFO test: unlike the detector's, it does not exclude 3X. */
  predicate IsBpfoPeak(m: Measurements)
  {
    var f := Fundamental(m);
    && m.peak3Freq > 50.0
    && Abs(m.peak3Freq - f) > 0.2 * f
    && Abs(m.peak3Freq - 2.0 * f) > 0.2 * (2.0 * f)
  }

  /** The branches read the voltage imbalance, which divides by the mean voltage. */
  predicate CanFuse(k: FaultType, m: Measurements)
  {
    UsesVoltageImbalance(k) ==> VoltageDefined(m)
  }

  /** The row a fault type's branch multiplies from; misalignment and cavitation have no branch. */
  function BranchRow(k: FaultType): Option<CptRow>
  {
    match k
    case ElectricalUnbalance => Some(ElectricalRow)
    case MechanicalUnbalance => Some(MechanicalRow)
    case BearingDefect => Some(BearingRow)
    case _ => None
  }

  /** The evidence tests of each branch, in the source's order. */
  function FusionFactors(k: FaultType, m: Measurements): (fs: seq<Factor>)
    requires CanFuse(k, m)
    ensures BranchRow(k) == None <==> fs == []
    ensures BranchRow(k).Some? ==> DrawnFrom(fs, Cpt(BranchRow(k).value))
    ensures ProbabilityWeights(fs)
  {
    match k
    case ElectricalUnbalance =>
      var row := Cpt(ElectricalRow);
      [Factor(TwoLfDominant, row[TwoLfDominant], IsTwoLineFreqDominant(m)),
       Factor(VoltageImbalanceAbove2, row[VoltageImbalanceAbove2], VoltageImbalance(m) > 2.0),
       Factor(PhaseUnstable, row[PhaseUnstable], GetOr(m.phaseInstability, 30.0) > 20.0),
       Factor(HfNormal, row[HfNormal], m.hfPumpDe < 0.7),
       Factor(TempNormal, row[TempNormal], TempRise(m) < 40.0)]
    case MechanicalUnbalance =>
      var row := Cpt(MechanicalRow);
      [Factor(OneXDominant, row[OneXDominant], IsOneXDominant(m)),
       Factor(PhaseStable, row[PhaseStable], GetOr(m.phaseInstability, 5.0) < 10.0),
       Factor(VoltageImbalanceBelow2, row[VoltageImbalanceBelow2], VoltageImbalance(m) < 2.0),
       Factor(HfNormal, row[HfNormal], m.hfPumpDe < 0.7)]
    case BearingDefect =>
      var row := Cpt(BearingRow);
      [Factor(HfHigh, row[HfHigh], m.hfPumpDe > 0.7),
       Factor(BpfoPeak, row[BpfoPeak], IsBpfoPeak(m)),
       Factor(TempRiseHigh, row[TempRiseHigh], TempRise(m) > 40.0),
       Factor(VoltageImbalanceBelow2, row[VoltageImbalanceBelow2], VoltageImbalance(m) < 2.0)]
    case _ => []
  }

  datatype FaultProbability = FaultProbability(
    kind: FaultType,
    posterior: real,
    likelihood: real,
    evidenceCount: nat,
    evidence: seq<Condition>,
    standard: string)

  function Posterior(p: FaultProbability): real
  {
    p.posterior
  }

  /** The probability entry of one validated fault. */
  function Probability(k: FaultType, m: Measurements): (p: FaultProbability)
    requires CanFuse(k, m)
    ensures p.kind == k
    ensures p.likelihood == Likelihood(FusionFactors(k, m)) && p.evidence == EvidenceOf(FusionFactors(k, m))
    ensures p.posterior == Min(p.likelihood * 100.0, 95.0)
    ensures 0.0 < p.likelihood <= 1.0
    ensures 0.0 < p.posterior <= 95.0
    ensures p.posterior <= p.likelihood * 100.0
    ensures p.evidenceCount == |p.evidence| <= |FusionFactors(k, m)|
    ensures BranchRow(k) == None ==> p.likelihood == 1.0 && p.posterior == 95.0 && p.evidenceCount == 0
  {
    var fs := FusionFactors(k, m);
    LikelihoodBounds(fs);
    EvidenceBound(fs);
    var likelihood := Likelihood(fs);
    var evidence := EvidenceOf(fs);
    FaultProbability(k, Min(likelihood * 100.0, 95.0), likelihood, |evidence|, evidence,
      "ISO 13381-1 Clause 7.3 (Remaining life estimation)")
  }

  lemma {:induction false} EvidenceBound(fs: seq<Factor>)
    ensures |EvidenceOf(fs)| <= |fs|
  {
    if fs != [] {
      EvidenceBound(fs[..|fs| - 1]);
    }
  }

  /** A condition is recorded as evidence exactly when one of the tests naming it held. */
  lemma {:induction false} EvidenceIsWhatHeld(fs: seq<Factor>, c: Condition)
    ensures c in EvidenceOf(fs) <==> exists i :: 0 <= i < |fs| && fs[i].condition == c && fs[i].holds
  {
    if fs != [] {
      var init := fs[..|fs| - 1];
      EvidenceIsWhatHeld(init, c);
      if c in EvidenceOf(init) {
        var i :| 0 <= i < |init| && init[i].condition == c && init[i].holds;
        assert fs[i] == init[i];
      }
      if exists i :: 0 <= i < |fs| && fs[i].condition == c && fs[i].holds {
        var i :| 0 <= i < |fs| && fs[i].condition == c && fs[i].holds;
        if i < |init| {
          assert init[i] == fs[i];
        }
      }
    }
  }

  /** The bearing branch records high-frequency evidence exactly when HF exceeds 0.7 g. */
  lemma BearingHfEvidence(m: Measurements)
    requires CanFuse(BearingDefect, m)
    ensures HfHigh in Probability(BearingDefect, m).evidence <==> m.hfPumpDe > 0.7
  {
    var fs := FusionFactors(BearingDefect, m);
    assert Probability(BearingDefect, m).evidence == EvidenceOf(fs);
    BearingFactorsHfFirst(m);
    EvidenceIsWhatHeld(fs, HfHigh);
  }

  /** Among the bearing branch's tests, only the first names the high-frequency condition, and it holds above 0.7 g. */
  lemma BearingFactorsHfFirst(m: Measurements)
    requires CanFuse(BearingDefect, m)
    ensures var fs := FusionFactors(BearingDefect, m);
      forall i :: 0 <= i < |fs| ==> (fs[i].condition == HfHigh <==> i == 0)
    ensures FusionFactors(BearingDefect, m)[0].holds <==> m.hfPumpDe > 0.7
  {
  }

  /** The likelihood of a branch is the product of the table entries of exactly the evidence it records. */
  lemma ProbabilityPairsFactorsWithEvidence(k: FaultType, m: Measurements)
    requires CanFuse(k, m) && BranchRow(k).Some?
    ensures forall i :: 0 <= i < |Probability(k, m).evidence| ==> Probability(k, m).evidence[i] in Cpt(BranchRow(k).value)
    ensures Probability(k, m).likelihood == CptProduct(Cpt(BranchRow(k).value), Probability(k, m).evidence)
  {
    LikelihoodMatchesEvidence(FusionFactors(k, m), Cpt(BranchRow(k).value));
  }

  ghost predicate AllFusable(validated: seq<CrossValidator.ValidatedFault>, m: Measurements)
  {
    forall i :: 0 <= i < |validated| ==> CanFuse(validated[i].kind, m)
  }

  /** One probability entry per validated fault, in input order. */
  function MapProbability(validated: seq<CrossValidator.ValidatedFault>, m: Measurements): (ps: seq<FaultProbability>)
    requires AllFusable(validated, m)
    ensures |ps| == |validated|
    ensures forall i :: 0 <= i < |validated| ==> ps[i] == Probability(validated[i].kind, m)
  {
    seq(|validated|, i requires 0 <= i < |validated| => Probability(validated[i].kind, m))
  }

  datatype FusionResult = FusionResult(
    primaryFault: Diagnosed,
    primaryConfidence: real,
    secondaryFaults: seq<FaultProbability>,
    allProbabilities: seq<FaultProbability>,
    /** the primary's evidence count; `None` is "No fault detected" */
    evidenceSummary: Option<nat>,
    standard: string)

  /** The fused entries ranked by posterior, highest first: a reordering of the mapped probabilities. */
  function Ranked(validated: seq<CrossValidator.ValidatedFault>, m: Measurements): (all: seq<FaultProbability>)
    requires AllFusable(validated, m)
    ensures |all| == |validated|
    ensures SortedDesc(all, Posterior)
    ensures multiset(all) == multiset(MapProbability(validated, m))
  {
    SortDesc(MapProbability(validated, m), Posterior)
  }

  /** The fusion result: entries ranked by posterior, the first one primary and the rest secondary. */
  function Fusion(validated: seq<CrossValidator.ValidatedFault>, m: Measurements): (r: FusionResult)
    requires AllFusable(validated, m)
    ensures |r.allProbabilities| == |validated|
    ensures SortedDesc(r.allProbabilities, Posterior)
    ensures multiset(r.allProbabilities) == multiset(MapProbability(validated, m))
    ensures validated == [] <==> r.primaryFault == NoFaultDetected
    ensures validated == [] ==> r.primaryConfidence == 0.0 && r.secondaryFaults == [] && r.evidenceSummary == None
    ensures validated != [] ==>
      && r.primaryFault == Detected(r.allProbabilities[0].kind)
      && r.primaryConfidence == r.allProbabilities[0].posterior
      && r.secondaryFaults == r.allProbabilities[1..]
      && r.evidenceSummary == Some(r.allProbabilities[0].evidenceCount)
    ensures forall i :: 0 <= i < |r.allProbabilities| ==> r.allProbabilities[i].posterior <= r.primaryConfidence
    ensures 0.0 <= r.primaryConfidence <= 95.0
  {
    var all := Ranked(validated, m);
    if all != [] then
      RankedEntryIsProbability(validated, m, all, 0);
      Summarize(all)
    else
      Summarize(all)
  }

  /** Reads the primary and secondary faults off a ranking, highest posterior first. */
  function Summarize(all: seq<FaultProbability>): (r: FusionResult)
    requires SortedDesc(all, Posterior)
    requires all != [] ==> 0.0 < all[0].posterior <= 95.0
    ensures r.allProbabilities == all
    ensures all == [] <==> r.primaryFault == NoFaultDetected
    ensures all == [] ==> r.primaryConfidence == 0.0 && r.secondaryFaults == [] && r.evidenceSummary == None
    ensures all != [] ==>
      && r.primaryFault == Detected(all[0].kind)
      && r.primaryConfidence == all[0].posterior
      && r.secondaryFaults == all[1..]
      && r.evidenceSummary == Some(all[0].evidenceCount)
    ensures forall i :: 0 <= i < |all| ==> all[i].posterior <= r.primaryConfidence
    ensures 0.0 <= r.primaryConfidence <= 95.0
  {
    if all == [] then
      FusionResult(NoFaultDetected, 0.0, [], [], None, "ISO 13381-1:2021 Clause 7 (Prognostics methodology)")
    else
      FusionResult(Detected(all[0].kind), all[0].posterior, all[1..], all, Some(all[0].evidenceCount),
        "ISO 13381-1:2021 Clause 7 (Prognostics methodology)")
  }

  /**
   * A validated misalignment or cavitation fault has no evidence branch, so
   * its posterior is the cap and the primary confidence is 95 whatever the
   * other faults' evidence.
   */
  lemma UnbranchedFaultTakesTheCap(validated: seq<CrossValidator.ValidatedFault>, m: Measurements, i: nat)
    requires AllFusable(validated, m) && i < |validated| && BranchRow(validated[i].kind) == None
    ensures Fusion(validated, m).primaryConfidence == 95.0
  {
    var mapped := MapProbability(validated, m);
    var r := Fusion(validated, m);
    assert mapped[i] in multiset(r.allProbabilities);
  }

  /**
   * The ranking is stable, so when several faults share the highest
   * posterior the one validated first becomes the primary fault.
   */
  lemma TiesGoToTheEarlierFault(validated: seq<CrossValidator.ValidatedFault>, m: Measurements, i: nat)
    requires AllFusable(validated, m) && i < |validated|
    requires Probability(validated[i].kind, m).posterior == Fusion(validated, m).primaryConfidence
    requires forall j :: 0 <= j < i ==> Probability(validated[j].kind, m).posterior < Fusion(validated, m).primaryConfidence
    ensures Fusion(validated, m).primaryFault == Detected(validated[i].kind)
  {
    var mapped := MapProbability(validated, m);
    var all := Fusion(validated, m).allProbabilities;
    var top := Fusion(validated, m).primaryConfidence;
    assert all == SortDesc(mapped, Posterior);
    SortDescStable(mapped, Posterior, top);
    FirstWithKey(mapped, Posterior, top, i);
    FirstWithKey(all, Posterior, top, 0);
  }

  /** Every ranked entry stands for one of the faults handed to the fusion. */
  lemma FusionEntriesComeFromInput(validated: seq<CrossValidator.ValidatedFault>, m: Measurements, i: nat)
    requires AllFusable(validated, m) && i < |Fusion(validated, m).allProbabilities|
    ensures exists j :: 0 <= j < |validated| && validated[j].kind == Fusion(validated, m).allProbabilities[i].kind
  {
    RankedEntryIsProbability(validated, m, Fusion(validated, m).allProbabilities, i);
  }

  /** An entry of any reordering of the mapped probabilities is the probability of some validated fault. */
  lemma RankedEntryIsProbability(validated: seq<CrossValidator.ValidatedFault>, m: Measurements, ps: seq<FaultProbability>, i: nat)
    requires AllFusable(validated, m)
    requires multiset(ps) == multiset(MapProbability(validated, m)) && i < |ps|
    ensures exists j :: 0 <= j < |validated| && ps[i] == Probability(validated[j].kind, m)
    ensures 0.0 < ps[i].posterior <= 95.0
  {
    var j := IndexInPermutation(ps, MapProbability(validated, m), i);
    assert ps[i] == Probability(validated[j].kind, m);
  }

  /** Where an element of one sequence sits in a permutation of it. */
  lemma IndexInPermutation<T>(a: seq<T>, b: seq<T>, i: nat) returns (j: nat)
    requires multiset(a) == multiset(b) && i < |a|
    ensures j < |b| && b[j] == a[i]
  {
    assert a[i] in multiset(b);
    j :| 0 <= j < |b| && b[j] == a[i];
  }

  /** The fusion as the source runs it: one entry appended per validated fault, then a stable sort. */
  method FuseFaults(validated: seq<CrossValidator.ValidatedFault>, m: Measurements) returns (r: FusionResult)
    requires AllFusable(validated, m)
    ensures r == Fusion(validated, m)
  {
    var probabilities: seq<FaultProbability> := [];
    var i := 0;
    while i < |validated|
      invariant 0 <= i <= |validated|
      invariant AllFusable(validated[..i], m)
      invariant probabilities == MapProbability(validated[..i], m)
    {
      probabilities := probabilities + [Probability(validated[i].kind, m)];
      MapProbabilityExtend(validated, m, i);
      i := i + 1;
    }
    assert validated[..i] == validated;
    probabilities := SortDesc(probabilities, Posterior);
    if probabilities == [] {
      r := FusionResult(NoFaultDetected, 0.0, [], probabilities, None, "ISO 13381-1:2021 Clause 7 (Prognostics methodology)");
    } else {
      var primary := probabilities[0];
      r := FusionResult(Detected(primary.kind), primary.posterior,
        if |probabilities| > 1 then probabilities[1..] else [],
        probabilities, Some(primary.evidenceCount), "ISO 13381-1:2021 Clause 7 (Prognostics methodology)");
    }
  }

  lemma MapProbabilityExtend(validated: seq<CrossValidator.ValidatedFault>, m: Measurements, i: nat)
    requires AllFusable(validated, m) && i < |validated|
    ensures AllFusable(validated[..i + 1], m)
    ensures MapProbability(validated[..i + 1], m) == MapProbability(validated[..i], m) + [Probability(validated[i].kind, m)]
  {
    assert validated[..i + 1][..i] == validated[..i];
  }
}
