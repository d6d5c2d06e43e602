/**
 * Level 1 of the diagnostic engine: hard shutdown criteria.  Five independent
 * threshold checks, each appending one CRITICAL trigger; any trigger means
 * the machine must be shut down.
 */
module SafetyGates {
  import opened PumpData

  datatype GateParameter =
    | MotorBearingTemperature
    | PumpBearingTemperature
    | VibrationVelocity
    | DischargePressureFluctuation
    | MotorLoadFactor

  datatype Trigger = Trigger(
    parameter: GateParameter,
    value: real,
    threshold: real,
    standard: string,
    severity: Severity)

  datatype SafetyStatus = StatusCritical | StatusSafe

  datatype SafetyResult = SafetyResult(
    shutdownRequired: bool,
    triggers: seq<Trigger>,
    triggerCount: nat,
    safetyStatus: SafetyStatus)

  const TemperatureLimit: real := 120.0
  const VibrationLimit: real := 11.2
  const PressureFluctuationLimit: real := 15.0
  const LoadFactorLimit: real := 110.0

  /** Position of each check in the order the source runs them. */
  function Rank(p: GateParameter): nat
  {
    match p
    case MotorBearingTemperature => 0
    case PumpBearingTemperature => 1
    case VibrationVelocity => 2
    case DischargePressureFluctuation => 3
    case MotorLoadFactor => 4
  }

  function MotorTempMax(m: Measurements): real
  {
    Max(m.tempMotorDe, m.tempMotorNde)
  }

  function PumpTempMax(m: Measurements): real
  {
    Max(m.tempPumpDe, m.tempPumpNde)
  }

  function PressureFluctuation(m: Measurements): real
  {
    GetOr(m.pDisFluctuation, 0.0)
  }

  /** Mean phase current as a percentage of full-load current; 0 when flc is not positive. */
  function LoadFactor(m: Measurements): real
  {
    var currentAvg := (m.currentR + m.currentS + m.currentT) / 3.0;
    if m.flc > 0.0 then (currentAvg / m.flc) * 100.0 else 0.0
  }

  predicate Tripped(ts: seq<Trigger>, p: GateParameter)
  {
    exists i :: 0 <= i < |ts| && ts[i].parameter == p
  }

  /** Some absolute danger threshold is strictly exceeded. */
  predicate AnyLimitExceeded(m: Measurements)
  {
    || MotorTempMax(m) > TemperatureLimit
    || PumpTempMax(m) > TemperatureLimit
    || VibrationMax(m) > VibrationLimit
    || PressureFluctuation(m) > PressureFluctuationLimit
    || LoadFactor(m) > LoadFactorLimit
  }

  /** One check: a CRITICAL trigger when the value strictly exceeds the threshold. */
  function Check(p: GateParameter, value: real, threshold: real, standard: string): seq<Trigger>
  {
    if value > threshold then [Trigger(p, value, threshold, standard, Critical)] else []
  }

  predicate AllCritical(ts: seq<Trigger>)
  {
    forall i :: 0 <= i < |ts| ==> ts[i].severity == Critical && ts[i].value > ts[i].threshold
  }

  predicate InCheckOrder(ts: seq<Trigger>)
  {
    forall i, j :: 0 <= i < j < |ts| ==> Rank(ts[i].parameter) < Rank(ts[j].parameter)
  }

  predicate RanksFrom(ts: seq<Trigger>, lo: nat)
  {
    forall i :: 0 <= i < |ts| ==> Rank(ts[i].parameter) >= lo
  }

  lemma PrependCheck(p: GateParameter, value: real, threshold: real, standard: string, rest: seq<Trigger>)
    requires AllCritical(rest) && InCheckOrder(rest) && RanksFrom(rest, Rank(p) + 1)
    ensures var ts := Check(p, value, threshold, standard) + rest;
      AllCritical(ts) && InCheckOrder(ts) && RanksFrom(ts, Rank(p)) && |ts| <= |rest| + 1
  {
    var ts := Check(p, value, threshold, standard) + rest;
    if value > threshold {
      forall i, j | 0 <= i < j < |ts|
        ensures Rank(ts[i].parameter) < Rank(ts[j].parameter)
      {
        assert ts[j] == rest[j - 1];
        if i > 0 {
          assert ts[i] == rest[i - 1];
        }
      }
    } else {
      assert ts == rest;
    }
  }

  function MotorTempCheck(m: Measurements): seq<Trigger>
  {
    Check(MotorBearingTemperature, MotorTempMax(m), TemperatureLimit, "API 610 Table 8.4.3-1")
  }

  function PumpTempCheck(m: Measurements): seq<Trigger>
  {
    Check(PumpBearingTemperature, PumpTempMax(m), TemperatureLimit, "API 610 Table 8.4.3-1")
  }

  function VibrationCheck(m: Measurements): seq<Trigger>
  {
    Check(VibrationVelocity, VibrationMax(m), VibrationLimit, "ISO 10816-3:2001 Clause 5.4")
  }

  function PressureCheck(m: Measurements): seq<Trigger>
  {
    Check(DischargePressureFluctuation, PressureFluctuation(m), PressureFluctuationLimit, "API 610 Clause 7.3.4")
  }

  function OverloadCheck(m: Measurements): seq<Trigger>
  {
    Check(MotorLoadFactor, LoadFactor(m), LoadFactorLimit, "IEC 60034-1 Table 3")
  }

  /** The triggers, in the order the checks run. */
  function GateTriggers(m: Measurements): (ts: seq<Trigger>)
    ensures |ts| <= 5
    ensures forall i :: 0 <= i < |ts| ==> ts[i].severity == Critical && ts[i].value > ts[i].threshold
    ensures forall i, j :: 0 <= i < j < |ts| ==> Rank(ts[i].parameter) < Rank(ts[j].parameter)
  {
    var t5 := OverloadCheck(m);
    var t45 := PressureCheck(m) + t5;
    var t345 := VibrationCheck(m) + t45;
    var t2345 := PumpTempCheck(m) + t345;
    PrependCheck(MotorLoadFactor, LoadFactor(m), LoadFactorLimit, "IEC 60034-1 Table 3", []);
    assert t5 == OverloadCheck(m) + [];
    PrependCheck(DischargePressureFluctuation, PressureFluctuation(m), PressureFluctuationLimit, "API 610 Clause 7.3.4", t5);
    PrependCheck(VibrationVelocity, VibrationMax(m), VibrationLimit, "ISO 10816-3:2001 Clause 5.4", t45);
    PrependCheck(PumpBearingTemperature, PumpTempMax(m), TemperatureLimit, "API 610 Table 8.4.3-1", t345);
    PrependCheck(MotorBearingTemperature, MotorTempMax(m), TemperatureLimit, "API 610 Table 8.4.3-1", t2345);
    MotorTempCheck(m) + t2345
  }

  /**
   * Each check trips exactly when its reading strictly exceeds its limit
   * (a reading equal to the limit never trips), and the list is empty
   * exactly when no limit is exceeded.
   */
  lemma GateTriggerConditions(m: Measurements)
    ensures Tripped(GateTriggers(m), MotorBearingTemperature) <==> MotorTempMax(m) > 120.0
    ensures Tripped(GateTriggers(m), PumpBearingTemperature) <==> PumpTempMax(m) > 120.0
    ensures Tripped(GateTriggers(m), VibrationVelocity) <==> VibrationMax(m) > 11.2
    ensures Tripped(GateTriggers(m), DischargePressureFluctuation) <==> PressureFluctuation(m) > 15.0
    ensures Tripped(GateTriggers(m), MotorLoadFactor) <==> m.flc > 0.0 && LoadFactor(m) > 110.0
    ensures GateTriggers(m) == [] <==> !AnyLimitExceeded(m)
  {
    TrippedExactly(m, MotorBearingTemperature);
    TrippedExactly(m, PumpBearingTemperature);
    TrippedExactly(m, VibrationVelocity);
    TrippedExactly(m, DischargePressureFluctuation);
    TrippedExactly(m, MotorLoadFactor);
    if GateTriggers(m) != [] {
      assert Tripped(GateTriggers(m), GateTriggers(m)[0].parameter);
    }
  }

  /** A parameter is in the trigger list exactly when its own check fires. */
  lemma TrippedExactly(m: Measurements, p: GateParameter)
    ensures Tripped(GateTriggers(m), p) <==>
      || (MotorTempMax(m) > TemperatureLimit && p == MotorBearingTemperature)
      || (PumpTempMax(m) > TemperatureLimit && p == PumpBearingTemperature)
      || (VibrationMax(m) > VibrationLimit && p == VibrationVelocity)
      || (PressureFluctuation(m) > PressureFluctuationLimit && p == DischargePressureFluctuation)
      || (LoadFactor(m) > LoadFactorLimit && p == MotorLoadFactor)
  {
    var t1, t2, t3, t4, t5 := MotorTempCheck(m), PumpTempCheck(m), VibrationCheck(m), PressureCheck(m), OverloadCheck(m);
    TrippedAppend(t4, t5, p);
    TrippedAppend(t3, t4 + t5, p);
    TrippedAppend(t2, t3 + (t4 + t5), p);
    TrippedAppend(t1, t2 + (t3 + (t4 + t5)), p);
    CheckTripped(MotorBearingTemperature, MotorTempMax(m), TemperatureLimit, "API 610 Table 8.4.3-1", p);
    CheckTripped(PumpBearingTemperature, PumpTempMax(m), TemperatureLimit, "API 610 Table 8.4.3-1", p);
    CheckTripped(VibrationVelocity, VibrationMax(m), VibrationLimit, "ISO 10816-3:2001 Clause 5.4", p);
    CheckTripped(DischargePressureFluctuation, PressureFluctuation(m), PressureFluctuationLimit, "API 610 Clause 7.3.4", p);
    CheckTripped(MotorLoadFactor, LoadFactor(m), LoadFactorLimit, "IEC 60034-1 Table 3", p);
  }

  lemma CheckTripped(p: GateParameter, value: real, threshold: real, standard: string, q: GateParameter)
    ensures Tripped(Check(p, value, threshold, standard), q) <==> value > threshold && p == q
  {
    var c := Check(p, value, threshold, standard);
    if value > threshold && p == q {
      assert c[0].parameter == q;
    }
  }

  lemma TrippedAppend(a: seq<Trigger>, b: seq<Trigger>, p: GateParameter)
    ensures Tripped(a + b, p) <==> Tripped(a, p) || Tripped(b, p)
  {
    if Tripped(a + b, p) {
      var i :| 0 <= i < |a + b| && (a + b)[i].parameter == p;
      if i < |a| {
        assert a[i].parameter == p;
      } else {
        assert b[i - |a|].parameter == p;
      }
    }
    if Tripped(a, p) {
      var i :| 0 <= i < |a| && a[i].parameter == p;
      assert (a + b)[i].parameter == p;
    }
    if Tripped(b, p) {
      var i :| 0 <= i < |b| && b[i].parameter == p;
      assert (a + b)[|a| + i].parameter == p;
    }
  }

  /** The nested concatenation equals the list grown left to right. */
  lemma GateTriggersInRunOrder(m: Measurements)
    ensures GateTriggers(m) == MotorTempCheck(m) + PumpTempCheck(m) + VibrationCheck(m) + PressureCheck(m) + OverloadCheck(m)
  {
    var t1, t2, t3, t4, t5 := MotorTempCheck(m), PumpTempCheck(m), VibrationCheck(m), PressureCheck(m), OverloadCheck(m);
    calc {
      t1 + (t2 + (t3 + (t4 + t5)));
      t1 + t2 + (t3 + (t4 + t5));
      t1 + t2 + t3 + (t4 + t5);
      t1 + t2 + t3 + t4 + t5;
    }
  }

  /** The result of the gate for a measurement record. */
  function SafetyCheck(m: Measurements): (r: SafetyResult)
    ensures r.triggers == GateTriggers(m)
    ensures r.shutdownRequired <==> AnyLimitExceeded(m)
    ensures r.shutdownRequired <==> r.triggers != []
    ensures r.triggerCount == |r.triggers|
    ensures r.safetyStatus == StatusCritical <==> r.shutdownRequired
  {
    var ts := GateTriggers(m);
    GateTriggerConditions(m);
    SafetyResult(|ts| > 0, ts, |ts|, if |ts| > 0 then StatusCritical else StatusSafe)
  }

  /** The gate as the source runs it: a trigger list grown by conditional appends. */
  method SafetyGatesCheck(m: Measurements) returns (r: SafetyResult)
    ensures r == SafetyCheck(m)
  {
    var triggers: seq<Trigger> := [];

    var tempMotorMax := Max(m.tempMotorDe, m.tempMotorNde);
    var tempPumpMax := Max(m.tempPumpDe, m.tempPumpNde);
    if tempMotorMax > 120.0 {
      triggers := triggers + [Trigger(MotorBearingTemperature, tempMotorMax, 120.0, "API 610 Table 8.4.3-1", Critical)];
    }
    assert triggers == MotorTempCheck(m);
    if tempPumpMax > 120.0 {
      triggers := triggers + [Trigger(PumpBearingTemperature, tempPumpMax, 120.0, "API 610 Table 8.4.3-1", Critical)];
    }
    assert triggers == MotorTempCheck(m) + PumpTempCheck(m);

    var vibrationMax := GetOr(m.vibrationMaxAvr, 0.0);
    if vibrationMax > 11.2 {
      triggers := triggers + [Trigger(VibrationVelocity, vibrationMax, 11.2, "ISO 10816-3:2001 Clause 5.4", Critical)];
    }
    assert triggers == MotorTempCheck(m) + PumpTempCheck(m) + VibrationCheck(m);

    var pDisFluct := GetOr(m.pDisFluctuation, 0.0);
    if pDisFluct > 15.0 {
      triggers := triggers + [Trigger(DischargePressureFluctuation, pDisFluct, 15.0, "API 610 Clause 7.3.4", Critical)];
    }
    assert triggers == MotorTempCheck(m) + PumpTempCheck(m) + VibrationCheck(m) + PressureCheck(m);

    var flc := m.flc;
    var currentAvg := (m.currentR + m.currentS + m.currentT) / 3.0;
    var loadFactor := if flc > 0.0 then (currentAvg / flc) * 100.0 else 0.0;
    if loadFactor > 110.0 {
      triggers := triggers + [Trigger(MotorLoadFactor, loadFactor, 110.0, "IEC 60034-1 Table 3", Critical)];
    }
    assert triggers == MotorTempCheck(m) + PumpTempCheck(m) + VibrationCheck(m) + PressureCheck(m) + OverloadCheck(m);
    GateTriggersInRunOrder(m);

    r := SafetyResult(
      |triggers| > 0,
      triggers,
      |triggers|,
      if |triggers| > 0 then StatusCritical else StatusSafe);
  }

  /** A bearing above 120 deg C forces a shutdown whatever the other readings are. */
  lemma HotBearingForcesShutdown(m: Measurements)
    requires Max(MotorTempMax(m), PumpTempMax(m)) > 120.0
    ensures SafetyCheck(m).shutdownRequired
    ensures SafetyCheck(m).safetyStatus == StatusCritical
    ensures Tripped(SafetyCheck(m).triggers, MotorBearingTemperature) || Tripped(SafetyCheck(m).triggers, PumpBearingTemperature)
  {
    GateTriggerConditions(m);
  }

  /**
   * The vibration check reads only the caller-supplied "vibration_max_avr":
   * without it, no velocity reading however large trips the gate.
   */
  lemma VibrationTriggerNeedsSuppliedValue(m: Measurements)
    requires m.vibrationMaxAvr == None
    ensures !Tripped(SafetyCheck(m).triggers, VibrationVelocity)
  {
    GateTriggerConditions(m);
  }
}
