# Pump diagnostic engine — a Dafny model

This project models the diagnostic core of a centrifugal pump condition
monitoring system. One set of measurements goes through a six-level diagnosis:

1. **Safety gates.** Bearing temperatures, vibration velocity, discharge
   pressure fluctuation and motor load are checked against hard limits. Any
   trigger stops the run with an emergency shutdown report.
2. **Severity.** The six direction averages of the velocity readings are
   computed. Their maximum is classified into an ISO 10816-3 zone (A to D),
   using the machine group, the speed and the foundation.
3. **FFT signatures.** Rule-based detection finds electrical unbalance,
   mechanical unbalance, angular or parallel misalignment, bearing defect
   and cavitation. Each found fault has a fixed confidence, and the
   detections are sorted by that confidence.
4. **Cross-validation.** Each detection is re-checked against three
   independent parameters, weighted 0.4, 0.3 and 0.3. A detection is
   *validated* when its consistency score reaches 0.6. Its confidence is
   scaled down to between 70 % of the original and a 0.95 cap.
5. **Bayesian fusion.** Each validated fault gets a likelihood. It is the
   product of the conditional probability table (CPT) entries that match
   its evidence. The posterior is the likelihood times 100, capped at 95.
   The fault with the highest posterior becomes the primary fault.
6. **Risk.** An MTBF estimate, a severity × probability risk matrix and a
   three-item recommendation list are derived. A bearing-stage assessment
   and a standards-compliance summary complete the comprehensive report.

Each `engine/*.py` file is one Dafny module:

- `safety_gates.dfy`
- `iso_10816_3_classifier.dfy`
- `fft_analyzer.dfy`
- `cross_validator.dfy`
- `bayesian_fusion.dfy`
- `risk_assessor.dfy`
- `diagnostic_engine.dfy`

Two shared modules support them:

- `pump_data.dfy` holds the measurement record, the fault vocabulary and the
  derived quantities several stages share.
- `ranking.dfy` holds Python's stable `list.sort(key=..., reverse=True)`,
  written as an insertion sort.

The sort comes with proofs of sortedness, permutation and stability.

**How imperative code is modelled.** Every stage that builds its result
step by step has two parts:

- a pure specification function, which carries the properties;
- a method that follows the source's appends and loops, and is proved equal
  to that function.

**The engine class.** `PumpDiagnosticEngine` is a class. Its `results`
table (a `map`) and its `inputData` field are updated in place, as in the
source. `Diagnose` is a function that says what one run returns and how it
transforms the table. `RunDiagnosis` is proved to do exactly that.

**Inputs with defaults.** The source reads each input with `dict.get` and a
default. The model uses a record with those defaults already filled in. A
field is an `Option` only where the missing case matters (see `PumpData`).

**Division by zero.** The source raises `ZeroDivisionError` when the mean
voltage is 0, and when the speed is 0 in the mechanical-unbalance
cross-check. The model makes both values being non-zero preconditions
(`VoltageDefined`, `CrossValidator.CanValidate`) of the members that
divide by them.

## Model

| member | source | states |
|---|---|---|
| PumpData.VoltageImbalance | engine/fft_analyzer.py:48-52 | the voltage imbalance (largest phase deviation over the mean, in %) is non-negative whenever the mean voltage is positive |
| Ranking.SortDesc | engine/fft_analyzer.py:176 | the sort returns a permutation of its input (same length, same multiset) ordered by descending key |
| Ranking.SortDescMembers | engine/fft_analyzer.py:176 | an element is in the sorted list exactly when it is in the input |
| Ranking.SortDescDistinct | engine/fft_analyzer.py:176 | sorting a list without duplicates gives a list without duplicates |
| Ranking.SortDescStable | engine/bayesian_fusion.py:207 | the sort is stable: for every key value, the elements carrying it keep their input order |
| SafetyGates.GateTriggers | engine/safety_gates.py:20-93 | at most five triggers; every trigger is critical and its value exceeds its threshold; triggers appear in gate order without repetition |
| SafetyGates.GateTriggerConditions | engine/safety_gates.py:23-93 | each gate trips exactly when its limit is exceeded: motor or pump bearing temperature above 120 C, vibration above 11.2 mm/s, pressure fluctuation above 15 %, load factor above 110 % when the full-load current is positive; no trigger exactly when no limit is exceeded |
| SafetyGates.TrippedExactly | engine/safety_gates.py:26-93 | a parameter is in the trigger list if and only if its own limit is exceeded |
| SafetyGates.GateTriggersInRunOrder | engine/safety_gates.py:20-93 | the trigger list is the concatenation of the five gate checks in the order the source runs them |
| SafetyGates.SafetyCheck | engine/safety_gates.py:95-101 | shutdown is required exactly when some limit is exceeded, that is, when the trigger list is non-empty; the status is CRITICAL exactly then; the count is the list length |
| SafetyGates.SafetyGatesCheck | engine/safety_gates.py:7-101 | the imperative check (appending triggers gate by gate) returns exactly `SafetyCheck` |
| SafetyGates.HotBearingForcesShutdown | engine/safety_gates.py:23-48 | a bearing temperature above 120 C forces shutdown with a CRITICAL status and a temperature trigger |
| SafetyGates.VibrationTriggerNeedsSuppliedValue | engine/safety_gates.py:51-52 | with no vibration maximum supplied, the vibration gate never trips (the value defaults to 0) |
| Iso10816Classifier.MachineGroup | engine/iso_10816_3_classifier.py:26-31 | group 1 exactly up to 15 kW, group 3 exactly above 75 kW, group 2 in between |
| Iso10816Classifier.MachineGroupMonotone | engine/iso_10816_3_classifier.py:26-31 | more power never gives a lower machine group |
| Iso10816Classifier.Limits | engine/iso_10816_3_classifier.py:34-55 | the B/C/D limits are strictly increasing with D at least 11.2 mm/s; the group 3 table is used exactly for group 3 above 1200 and up to 3600 rpm, rigid or flexible as the foundation says; the limits are 2.8/7.1/11.2 (rigid group 3), 4.5/11.2/18.0 (flexible group 3) and 4.5/7.1/11.2 otherwise |
| Iso10816Classifier.FlexibleLimitsNoStricter | engine/iso_10816_3_classifier.py:37-55 | every flexible-foundation limit is at least the rigid one |
| Iso10816Classifier.ClassifyZone | engine/iso_10816_3_classifier.py:6-97 | the reported limits and basis are those of `Limits` for the group, speed and foundation; zone A/B/C/D exactly for velocity at most B, in (B, C], in (C, D] and above D; immediate shutdown is advised exactly in zone D |
| Iso10816Classifier.ZoneMonotone | engine/iso_10816_3_classifier.py:58-81 | a higher velocity never gives a better zone |
| Iso10816Classifier.FlexibleZoneNoWorse | engine/iso_10816_3_classifier.py:37-81 | a flexible foundation never gives a worse zone than a rigid one for the same reading |
| Iso10816Classifier.ZoneDAboveGateLimit | engine/iso_10816_3_classifier.py:34-81 | zone D implies a velocity above 11.2 mm/s |
| Iso10816Classifier.SeqMax | engine/iso_10816_3_classifier.py:128 | the maximum is one of the values and bounds all of them |
| Iso10816Classifier.FirstIndexOf | engine/iso_10816_3_classifier.py:132 | `list.index`: the first position holding the value |
| Iso10816Classifier.DirectionAveragesOf | engine/iso_10816_3_classifier.py:100-144 | each of the six direction averages is the mean of its DE and NDE readings, in the source's order; the maximum bounds them all; the reported direction is the first one that attains it |
| FftAnalyzer.CandidateFor | engine/fft_analyzer.py:56-173 | each detection has WARNING severity and its rule's fixed confidence (0.92, 0.88, 0.85, 0.87 or 0.80) |
| FftAnalyzer.BepDeviation | engine/fft_analyzer.py:157 | the deviation from the best-efficiency-point flow is non-negative, and 0 when that flow is not positive |
| FftAnalyzer.MisalignmentKind | engine/fft_analyzer.py:100-101 | the misalignment is angular exactly when the pump axial average exceeds 0.7 times the vertical average, parallel otherwise |
| FftAnalyzer.Collect | engine/fft_analyzer.py:19-173 | at most five detections, with no fault type repeated |
| FftAnalyzer.CollectMembers | engine/fft_analyzer.py:56-173 | a fault is listed exactly when its rule fires; the list is empty exactly when no rule fires |
| FftAnalyzer.Detections | engine/fft_analyzer.py:6-173 | the unsorted detections hold at most five faults, with no type repeated |
| FftAnalyzer.FftSignatures | engine/fft_analyzer.py:175-178 | the reported list is the detections reordered by descending confidence |
| FftAnalyzer.SortKeepsWellFormed | engine/fft_analyzer.py:176 | sorting keeps the faults of the list pairwise of different types |
| FftAnalyzer.ReportedAfterSort | engine/fft_analyzer.py:176 | sorting neither adds nor drops a fault type |
| FftAnalyzer.ReportedIffFires | engine/fft_analyzer.py:44-173 | a fault type is reported if and only if its detection rule fires |
| FftAnalyzer.RuleFiresByKind | engine/fft_analyzer.py:44-173 | which rule belongs to which fault type, including the misalignment subtype |
| FftAnalyzer.NoSignatureIffNoRule | engine/fft_analyzer.py:6-178 | an empty result exactly when none of the five rules fires |
| FftAnalyzer.ElectricalExcludesMechanical | engine/fft_analyzer.py:54-77 | electrical and mechanical unbalance are never reported together |
| FftAnalyzer.OneMisalignmentSubtype | engine/fft_analyzer.py:100-103 | angular and parallel misalignment are never reported together |
| FftAnalyzer.MechanicalNeedsPositiveSpeed | engine/fft_analyzer.py:71-72 | mechanical unbalance is only reported at a positive speed |
| FftAnalyzer.DetectFftSignatures | engine/fft_analyzer.py:6-178 | the imperative detector (appending faults rule by rule, then sorting) returns exactly `FftSignatures` |
| FftAnalyzer.BearingStage | engine/fft_analyzer.py:199-214 | stage 0/1/2/3 exactly for HF below 0.3, in [0.3, 0.7), in [0.7, 1.5) and from 1.5 g |
| FftAnalyzer.ConditionText | engine/fft_analyzer.py:199-224 | the condition starts with the stage text; the overheating mark follows exactly when the temperature rise exceeds 60 C; the impact mark ends it exactly when demodulation exceeds 0.5 g |
| FftAnalyzer.AdviceText | engine/fft_analyzer.py:199-224 | above a 60 C rise the advice starts with the urgent text, otherwise with the stage advice; the demodulation note ends it exactly when demodulation exceeds 0.5 g |
| FftAnalyzer.AnalyzeBearingCondition | engine/fft_analyzer.py:181-234 | the assessment carries the HF stage, the condition and advice above, and the three input values |
| FftAnalyzer.BearingStageMonotone | engine/fft_analyzer.py:199-214 | a higher HF reading never gives a lower stage |
| FftAnalyzer.BearingStageIgnoresTemperature | engine/fft_analyzer.py:199-224 | the stage depends on the HF reading alone, not on temperature or demodulation |
| FftAnalyzer.DetectedBearingDefectStage | engine/fft_analyzer.py:116-131 | a reported bearing defect implies bearing stage 2 or more |
| CrossValidator.Step | engine/cross_validator.py:39-171 | one check adds its weight to the score when it passes; it records one note; it adds an inconsistency exactly when it fails and is not neutral |
| CrossValidator.Assess | engine/cross_validator.py:24-171 | one note per check; with non-negative weights the score lies between 0 and the total weight |
| CrossValidator.AssessThree | engine/cross_validator.py:24-171 | three checks are folded in order; the score is the sum of the passed weights |
| CrossValidator.ConsistencyTests | engine/cross_validator.py:30-171 | cavitation gets no checks; every other fault gets three checks weighted 0.4, 0.3, 0.3 |
| CrossValidator.ThreeChecksWeighOne | engine/cross_validator.py:40-59 | the three weights sum to 1 |
| CrossValidator.Consistency | engine/cross_validator.py:23-171 | the consistency score lies in [0, 1]; cavitation scores 0 with no notes |
| CrossValidator.ElectricalScore | engine/cross_validator.py:31-62 | electrical unbalance earns 0.4 for imbalance above 2 %, 0.3 for a gradient below 15 C, 0.3 for phase instability above 20 deg (30 deg when absent) |
| CrossValidator.ScoreThresholdIsTwoOfThree | engine/cross_validator.py:184 | with weights 0.4/0.3/0.3, a score of at least 0.6 means exactly that two or more checks passed |
| CrossValidator.ValidatedIffTwoChecksPass | engine/cross_validator.py:30-184 | a fault is validated if and only if at least two of its three checks pass |
| CrossValidator.EqualAveragesEarnNoPatternCredit | engine/cross_validator.py:150-160 | a misalignment with equal axial and vertical averages fails the pattern check and scores at most 0.7 |
| CrossValidator.TemperatureChecksAreNeutral | engine/cross_validator.py:113-171 | a failed temperature check on bearing or misalignment faults records no inconsistency |
| CrossValidator.AdjustedConfidence | engine/cross_validator.py:174-181 | the final confidence is capped at 0.95, never exceeds the original, and is at least 70 % of it (or 0.95) |
| CrossValidator.AdjustedConfidenceMonotone | engine/cross_validator.py:175-181 | a higher consistency score never lowers the final confidence |
| CrossValidator.ValidateFault | engine/cross_validator.py:173-187 | the record keeps kind, original confidence, standard and severity; its score, evidence and inconsistencies are those of the kind's consistency checks; its final confidence is the original adjusted by that score; it is validated exactly when the score reaches 0.6; cavitation is never validated |
| CrossValidator.MapValidate | engine/cross_validator.py:23-187 | each fault is validated in place, one record per input fault |
| CrossValidator.CrossValidated | engine/cross_validator.py:189-192 | the records are a permutation of the per-fault records, sorted by descending final confidence |
| CrossValidator.CrossValidatedMembers | engine/cross_validator.py:23-192 | a record is in the result exactly when it validates one of the input faults |
| CrossValidator.FftSignaturesValidatable | engine/cross_validator.py:67-94 | every reported FFT signature can be cross-validated: a mechanical unbalance always comes with a non-zero speed |
| CrossValidator.ScoreFault | engine/cross_validator.py:24-171 | the imperative scoring (accumulating score and notes check by check) returns exactly `Consistency` |
| CrossValidator.RecordValidatedIffTwoChecksPass | engine/cross_validator.py:30-184 | a record is validated exactly when its kind is not cavitation and at least two of its consistency checks pass |
| CrossValidator.ValidateOne | engine/cross_validator.py:24-187 | one loop iteration of the validator produces exactly `ValidateFault` |
| CrossValidator.CrossValidateFaults | engine/cross_validator.py:6-192 | the loop over all faults followed by the sort returns exactly `CrossValidated` |
| BayesianFusion.CptEntriesAreProbabilities | engine/bayesian_fusion.py:23-55 | every CPT entry is a probability in (0, 1] |
| BayesianFusion.LikelihoodBounds | engine/bayesian_fusion.py:61-191 | a product of probability weights lies in (0, 1] |
| BayesianFusion.FurtherEvidenceNeverRaises | engine/bayesian_fusion.py:73-191 | multiplying in one more piece of evidence never raises the likelihood |
| BayesianFusion.LikelihoodMatchesEvidence | engine/bayesian_fusion.py:61-191 | the likelihood is the product of the CPT entries named in the evidence list, and each is in the table |
| BayesianFusion.FusionFactors | engine/bayesian_fusion.py:64-191 | only electrical, mechanical and bearing faults have evidence, drawn from their own CPT row |
| BayesianFusion.EvidenceIsWhatHeld | engine/bayesian_fusion.py:61-191 | a condition is in the evidence exactly when one of the branch's tests names it and holds |
| BayesianFusion.BearingHfEvidence | engine/bayesian_fusion.py:150-156 | the bearing posterior cites high HF exactly when the DE HF reading is above 0.7 g |
| BayesianFusion.Probability | engine/bayesian_fusion.py:59-204 | likelihood is the product of the CPT entries of the tests that hold and the evidence lists exactly those tests; posterior is min(100 × likelihood, 95), so in (0, 95]; the evidence count is the evidence length; a fault without a branch gets likelihood 1 and posterior 95 |
| BayesianFusion.ProbabilityPairsFactorsWithEvidence | engine/bayesian_fusion.py:61-200 | the recorded evidence names the CPT entries whose product is the likelihood |
| BayesianFusion.MapProbability | engine/bayesian_fusion.py:57-204 | one probability per validated fault, in input order |
| BayesianFusion.Ranked | engine/bayesian_fusion.py:206-207 | the probabilities reordered by descending posterior (a permutation) |
| BayesianFusion.Fusion | engine/bayesian_fusion.py:206-219 | sorted permutation of the probabilities; no fault detected exactly for an empty input; otherwise the primary fault is the top entry, its posterior is the highest and at most 95, and the rest are secondary |
| BayesianFusion.Summarize | engine/bayesian_fusion.py:209-219 | the result record built from a ranked list: primary is the head (or none with confidence 0), secondary the tail |
| BayesianFusion.UnbranchedFaultTakesTheCap | engine/bayesian_fusion.py:59-214 | any validated fault without a CPT branch (misalignment, cavitation) makes the primary confidence 95 |
| BayesianFusion.TiesGoToTheEarlierFault | engine/bayesian_fusion.py:207-213 | among faults tied on the highest posterior, the first in input order becomes primary |
| BayesianFusion.FusionEntriesComeFromInput | engine/bayesian_fusion.py:59-216 | every fused probability belongs to one of the validated faults |
| BayesianFusion.RankedEntryIsProbability | engine/bayesian_fusion.py:194-207 | every entry of a permutation of the probabilities is the probability of some validated fault, with posterior in (0, 95] |
| BayesianFusion.FuseFaults | engine/bayesian_fusion.py:6-219 | the imperative fusion loop followed by the sort returns exactly `Fusion` |
| RiskAssessor.SeverityZone | engine/risk_assessor.py:26-34 | zone D above 11.2, C above 7.1, B above 2.8, A otherwise |
| RiskAssessor.SeverityZoneIsRigidGroup3Zone | engine/risk_assessor.py:26-34 | these are the ISO 10816-3 rigid group 3 zones for machines above 75 kW running above 1200 and up to 3600 rpm |
| RiskAssessor.SeverityLevel | engine/risk_assessor.py:37-45 | severity HIGH exactly above 90 % confidence in zone C; MEDIUM exactly above 80 % in zone B or C otherwise; always LOW in zones A and D |
| RiskAssessor.ProbabilityLevel | engine/risk_assessor.py:50-58 | HIGH below 7 days MTBF, MEDIUM from 7 to 29 days, LOW from 30 days |
| RiskAssessor.RiskMatrix | engine/risk_assessor.py:61-76 | the risk rank is the sum of the severity and probability ranks less one (floored at LOW); CRITICAL exactly for HIGH × HIGH, with a 4-hour timeline and immediate shutdown; HIGH within 24 hours; MEDIUM within 72 hours with scheduled maintenance at HIGH severity, otherwise within 7 days with planned maintenance; LOW within 90 days for LOW × LOW, otherwise 30 days |
| RiskAssessor.RiskMatrixMonotone | engine/risk_assessor.py:61-71 | raising severity or probability never lowers the risk |
| RiskAssessor.RiskMatrixSymmetricRisk | engine/risk_assessor.py:61-71 | the risk level is symmetric in severity and probability |
| RiskAssessor.BaseMtbf | engine/risk_assessor.py:111-120 | base MTBF between 14 and 365 days, 365 exactly with no fault, 90 for misalignment |
| RiskAssessor.MtbfEstimate | engine/risk_assessor.py:95-147 | between 2 days and the base; for a bearing defect with HF above 1.0 g the base and vibration adjustment are replaced by 3 days (HF above 1.5 g) or 7 days, and only the temperature adjustment then applies; a rise of at most 60 C keeps at least 3 days; mild conditions leave the base unchanged |
| RiskAssessor.BearingOverrideDays | engine/risk_assessor.py:129-145 | a bearing defect gets 3 days above 1.5 g and 7 days above 1.0 g with a rise of at most 50 C, 2 days at stage 3 with a rise above 60 C, and 4 days above 1.0 g with a rise in (50, 60] C |
| RiskAssessor.MtbfFallsWithVibration | engine/risk_assessor.py:123-127 | more vibration never raises the MTBF estimate |
| RiskAssessor.MtbfFallsWithTemperature | engine/risk_assessor.py:138-145 | a hotter pump bearing never raises the MTBF estimate |
| RiskAssessor.EstimateMtbf | engine/risk_assessor.py:95-147 | the imperative estimate (successive reassignments) returns exactly `MtbfEstimate` |
| RiskAssessor.Monitoring | engine/risk_assessor.py:172-178 | the monitoring item is daily exactly at CRITICAL or HIGH risk, weekly otherwise |
| RiskAssessor.LeadAction | engine/risk_assessor.py:181-256 | the lead action is CRITICAL priority exactly for electrical unbalance at CRITICAL risk or a bearing defect under 7 days MTBF, HIGH otherwise |
| RiskAssessor.FollowUp | engine/risk_assessor.py:190-264 | the follow-up is MEDIUM priority, within 30 days for a bearing defect and 7 days otherwise |
| RiskAssessor.Recommendations | engine/risk_assessor.py:169-266 | only monitoring with no fault; otherwise lead action, monitoring, follow-up in that order |
| RiskAssessor.BearingReplacementTimeline | engine/risk_assessor.py:232-239 | bearing replacement is due within min(MTBF, 14) days and is CRITICAL exactly under 7 days |
| RiskAssessor.GenerateRecommendations | engine/risk_assessor.py:150-266 | the imperative list building returns exactly `Recommendations` |
| RiskAssessor.AssessRisk | engine/risk_assessor.py:6-92 | the risk result combines MTBF, severity, probability and the recommendations as above; its risk level, timeline and priority are the matrix cell for its severity and probability; CRITICAL exactly with a 4-hour timeline |
| RiskAssessor.CriticalRiskConditions | engine/risk_assessor.py:26-76 | CRITICAL risk requires confidence above 90 %, vibration in zone C and an MTBF under 7 days |
| RiskAssessor.ZoneDRatedLowSeverity | engine/risk_assessor.py:27-45 | vibration above 11.2 mm/s is rated LOW severity and never gives CRITICAL risk |
| DiagnosticEngine.ShutdownOrder | engine/diagnostic_engine.py:110-116 | the emergency recommendation is CRITICAL and immediate |
| DiagnosticEngine.RoutineOrder | engine/diagnostic_engine.py:130-136 | the no-fault recommendation is ROUTINE and monthly |
| DiagnosticEngine.AssessCompliance | engine/diagnostic_engine.py:182-220 | ISO 10816 compliant in zones A/B and non-compliant in D; IEC 60034 compliant exactly at imbalance at most 2 %; API 610 compliant exactly at NPSH margin at least 0.6; ISO 15243 compliant at stage 0 and warning at stage 1; overall compliant exactly when all four are |
| DiagnosticEngine.WornBearingIsNonCompliant | engine/diagnostic_engine.py:206-219 | bearing stage 2 or more makes ISO 15243 and the overall status non-compliant |
| DiagnosticEngine.ValidatedOnly | engine/diagnostic_engine.py:79 | keeps exactly the validated records; empty exactly when none is validated |
| DiagnosticEngine.ValidatedOnlyAppend | engine/diagnostic_engine.py:79 | filtering a concatenation is concatenating the filtered parts, so the filter keeps the records' order |
| DiagnosticEngine.ValidatedOnlySingle | engine/diagnostic_engine.py:79 | one record is kept exactly when it is validated |
| DiagnosticEngine.WithVibrationMax | engine/diagnostic_engine.py:58 | the input record gains the computed maximum direction average and nothing else changes |
| DiagnosticEngine.RecordFused | engine/diagnostic_engine.py:84-99 | the fusion, risk and bearing entries are written and no existing entry is lost |
| DiagnosticEngine.RecordLate | engine/diagnostic_engine.py:72-99 | the validation entry is written and no existing entry is lost |
| DiagnosticEngine.Detection | engine/diagnostic_engine.py:60-102 | the FFT entry is written, no entry is lost, the data is passed on unchanged |
| DiagnosticEngine.Proceed | engine/diagnostic_engine.py:43-102 | averages, severity and FFT entries are written and no entry is lost; the data carries the computed vibration maximum |
| DiagnosticEngine.ProceedIsDetection | engine/diagnostic_engine.py:43-61 | level 2 writes averages and severity, then hands the augmented data to fault detection |
| DiagnosticEngine.DiagnoseProceeds | engine/diagnostic_engine.py:36-45 | when no limit is exceeded, the run records level 1 and proceeds to level 2 |
| DiagnosticEngine.ResultsNeverShrink | engine/diagnostic_engine.py:19-102 | every run keeps all earlier entries of the results table and records level 1 |
| DiagnosticEngine.EmergencyStopsAtLevel1 | engine/diagnostic_engine.py:36-41 | a tripped gate yields the emergency report with the shutdown order, status non-compliant; the table gains only the level 1 entry; the input is unchanged |
| DiagnosticEngine.RoutineWhenNothingDetected | engine/diagnostic_engine.py:43-69 | with no FFT signature, the basic report with routine monitoring and a compliant status, and the table gains exactly the level 1 to 3 entries |
| DiagnosticEngine.DetectionFindsNothing | engine/diagnostic_engine.py:61-69 | fault detection with no signature writes an empty FFT entry and returns the basic report |
| DiagnosticEngine.DiagnoseReachesValidation | engine/diagnostic_engine.py:61-72 | with some FFT signature, the run goes on to cross-validation (all signatures are validatable) |
| DiagnosticEngine.ComprehensiveReportFacts | engine/diagnostic_engine.py:144-180 | with a validated fault, the report's summary is the detected primary fault, its confidence the primary posterior, and its three recommendations come from the risk assessment |
| DiagnosticEngine.FusionSeesOnlyValidatedFaults | engine/diagnostic_engine.py:79-84 | every fused fault is one of the validated records |
| DiagnosticEngine.ComprehensiveRunRecordsAllLevels | engine/diagnostic_engine.py:72-102 | with some fault validated, the run returns the comprehensive report over the validated faults and the table gains exactly the level 1 to 6 and bearing entries, each with this run's result |
| DiagnosticEngine.FusionSeesEveryValidatedFault | engine/diagnostic_engine.py:79-85 | every validated record's fault kind has a probability in the fusion result |
| DiagnosticEngine.BearingOf | engine/diagnostic_engine.py:92-98 | the bearing analysis reads the HF, DE temperature less 35 °C ambient and demodulation values, and its stage is the FFT analyzer's bearing stage for the HF reading |
| DiagnosticEngine.FusedReport | engine/diagnostic_engine.py:83-180 | the comprehensive report: fusion of the validated records, risk assessed on that fusion, bearing analysis, summary and confidence from the primary fault, recommendations from the risk result, compliance from zone, data and bearing stage |
| DiagnosticEngine.LateReport | engine/diagnostic_engine.py:72-102 | the basic routine report exactly when no record is validated; otherwise a comprehensive report whose fusion is over the validated records and whose summary names a detected fault |
| DiagnosticEngine.Diagnose | engine/diagnostic_engine.py:19-102 | a run passes the data on unchanged when a safety limit trips, and with its computed vibration maximum otherwise |
| DiagnosticEngine.EmergencyIffLimitExceeded | engine/diagnostic_engine.py:36-41 | the report is the emergency one exactly when some safety limit is exceeded |
| DiagnosticEngine.NothingValidatedIsRoutine | engine/diagnostic_engine.py:72-81 | with signatures but none validated, the run returns the basic routine report and the table gains exactly the level 1 to 4 entries, with a validated count of 0 |
| DiagnosticEngine.PumpDiagnosticEngine.constructor | engine/diagnostic_engine.py:16-17 | a new engine starts with an empty results table and no input |
| DiagnosticEngine.PumpDiagnosticEngine.RunDiagnosis | engine/diagnostic_engine.py:19-102 | one run returns the report of `Diagnose`, leaves the table `Diagnose` computes from the old table, and stores the updated input |
| DiagnosticEngine.PumpDiagnosticEngine.AssessSeverity | engine/diagnostic_engine.py:43-58 | levels 2 onward update the table and report exactly as `Proceed` says |
| DiagnosticEngine.PumpDiagnosticEngine.DetectFaults | engine/diagnostic_engine.py:60-69 | level 3 onward updates the table and report exactly as `Detection` says |
| DiagnosticEngine.PumpDiagnosticEngine.EscalateFaults | engine/diagnostic_engine.py:71-81 | level 4 onward updates the table as `RecordLate` says and returns the corresponding report |
| DiagnosticEngine.PumpDiagnosticEngine.FuseAndAssess | engine/diagnostic_engine.py:83-102 | levels 5 and 6 write fusion, risk and bearing entries as `RecordFused` says and return the comprehensive report |

## Behaviour a reader might expect that the code does not have

The model follows the code in each of these cases:

- **Bearing stage at 1.8 g.** One might expect an HF reading of 1.8 g to
  be bearing stage 2. The code gives stage 3 for any reading from 1.5 g
  (`engine/fft_analyzer.py:199-214`).
- **Missing inputs.** One might expect missing inputs to be rejected. The
  code substitutes a default for every key.
- **Number of safety checks.** One might expect four safety checks. The
  code runs five; motor overload is the fifth.
- **Leftover table entries.** One might expect the later stages to be
  absent from an emergency result. The engine's results table keeps any
  entries left by an earlier run, because `run_diagnosis` never clears it
  (`DiagnosticEngine.EmergencyStopsAtLevel1` states exactly what remains).

## Left out

- `app.py`, the report generator and the user interface are not part of this model.
- Free-text wording (evidence notes, recommendation texts, summary strings, compliance reasons) is modelled as labels or fixed marker strings. The `details` fields are dropped.
- The safety trigger record (`SafetyGates.Trigger`) keeps the parameter, value, numeric threshold, standard and severity; the source's `component`, `unit` and `action` fields and the threshold's text form with its unit (such as "120°C") are not modelled (`engine/safety_gates.py:27-35`).
- Floating-point arithmetic is modelled with exact reals. The formatting of numbers inside notes is not modelled.
- `ZeroDivisionError` on a zero mean voltage or a zero speed is a precondition, not an error path.
- The MISALIGNMENT row of the fusion CPT and the MISALIGNMENT base-MTBF entry are never looked up by the code (fault types are ANGULAR_/PARALLEL_MISALIGNMENT). The model includes the row but follows the code, so misalignment gets likelihood 1 and a base MTBF of 90 days.
- The risk matrix's fallback branch cannot be reached, because every severity and probability pair is covered. It is not modelled.
- The audit trail's timestamp and list of standards are not modelled (clock access).
- The emergency report keeps only the safety result, the single shutdown order (`ShutdownOrder`) and the NON-COMPLIANT status. The basic report keeps only the zone result, the single routine order (`RoutineOrder`) and the COMPLIANT status. The engine's report type tag, summary strings, compliance reasons and required-action text for these two reports (`engine/diagnostic_engine.py:104-142`) are not modelled.
- Aliasing of the caller's input dictionary is not modelled. The engine stores its own updated copy in `inputData`, which holds the same final value as the source.
- The order in which the inner engine steps write table entries is not modelled. Only the resulting table is stated.
- `_assess_compliance` is modelled as a function of the zone, the measurements and the bearing stage rather than of the results table.
- PumpData.VoltageImbalance: the contract states only non-negativity. Its value is used through the rules and checks that read it.
- DiagnosticEngine.RecordFused: its contract states only which entries are written and that none is lost; the exact values are fixed by `FuseAndAssess`'s contract and, for a whole run, by `ComprehensiveRunRecordsAllLevels`.
- DiagnosticEngine.RecordLate: its contract states only which entry is written and that none is lost; the exact values are fixed by `EscalateFaults`'s contract and, for a whole run, by `NothingValidatedIsRoutine` and `ComprehensiveRunRecordsAllLevels`.
