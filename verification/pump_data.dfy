/**
 * The measurement record shared by every stage of the pump diagnostic
 * engine, the fault vocabulary, and the derived quantities (averages,
 * voltage imbalance, frequency ratios) that several stages compute from
 * the record in the same way.
 *
 * The source passes a string-keyed dictionary and reads every key with
 * a default (`data.get(key, default)`).  Here the record holds one field
 * per key with the default already substituted, except for the keys whose
 * absence matters or whose default differs between readers; those are
 * `Option`s and the readers below apply the default.
 */
module PumpData {

  datatype Option<+T> = None | Some(value: T)

  function GetOr<T>(o: Option<T>, default: T): T
  {
    match o
    case Some(v) => v
    case None => default
  }

  /** "Rigid (Concrete)" is `Rigid`; every other foundation string is `Flexible`. */
  datatype Foundation = Rigid | Flexible

  datatype Measurements = Measurements(
    // asset context
    motorKw: real,            // default 315
    motorRpm: real,           // default 1500
    flc: real,                // full-load current, default 500
    foundation: Foundation,   // default Rigid
    // bearing housing temperatures (deg C), default 0
    tempMotorDe: real, tempMotorNde: real,
    tempPumpDe: real, tempPumpNde: real,
    // velocity readings (mm/s RMS), default 0
    motorHDe: real, motorHNde: real, motorVDe: real, motorVNde: real,
    motorADe: real, motorANde: real,
    pumpHDe: real, pumpHNde: real, pumpVDe: real, pumpVNde: real,
    pumpADe: real, pumpANde: real,
    /** caller-supplied, or written by the engine after the safety gate; absent reads as 0 */
    vibrationMaxAvr: Option<real>,
    /** discharge pressure fluctuation in %; absent reads as 0 */
    pDisFluctuation: Option<real>,
    // three-phase electrical readings
    currentR: real, currentS: real, currentT: real,      // default 0
    voltageR: real, voltageS: real, voltageT: real,      // default 400
    // the three global FFT peaks (Hz, mm/s), default 0
    peak1Freq: real, peak1Amp: real,
    peak2Freq: real, peak2Amp: real,
    peak3Freq: real, peak3Amp: real,
    // high-frequency band and demodulation at the pump drive end (g), default 0
    hfPumpDe: real,
    demodPumpDe: real,
    /** phase instability in degrees; absent reads as 30 or 5 depending on the reader */
    phaseInstability: Option<real>,
    displacementPeak: real,   // default 0
    // hydraulics
    pSuc: real,               // suction pressure, default 0
    actualFlow: real,         // default 0
    bepFlow: real,            // default 100
    npshr: real               // default 3.0
  )

  /** The fault types the signature detector can report. */
  datatype FaultType =
    | ElectricalUnbalance
    | MechanicalUnbalance
    | AngularMisalignment
    | ParallelMisalignment
    | BearingDefect
    | Cavitation

  /** The source tests `"MISALIGNMENT" in fault_type`, which both misalignment types pass. */
  predicate IsMisalignment(k: FaultType)
  {
    k == AngularMisalignment || k == ParallelMisalignment
  }

  /** The fault types whose consistency and evidence checks read the voltage imbalance. */
  predicate UsesVoltageImbalance(k: FaultType)
  {
    k == ElectricalUnbalance || k == MechanicalUnbalance || k == BearingDefect
  }

  /** A fused diagnosis: a fault type, or the literal "NO_FAULT_DETECTED". */
  datatype Diagnosed = NoFaultDetected | Detected(kind: FaultType)

  datatype Severity = Critical | Warning

  function Abs(x: real): real
  {
    if x < 0.0 then -x else x
  }

  function Max(a: real, b: real): real
  {
    if a >= b then a else b
  }

  function Min(a: real, b: real): real
  {
    if a <= b then a else b
  }

  /** Ambient temperature assumed for the terminal (deg C). */
  const Ambient: real := 35.0

  function TempRise(m: Measurements): real
  {
    m.tempPumpDe - Ambient
  }

  function TempGradient(m: Measurements): real
  {
    Abs(m.tempPumpDe - m.tempPumpNde)
  }

  function PumpAxialAvg(m: Measurements): real
  {
    (m.pumpADe + m.pumpANde) / 2.0
  }

  function PumpVerticalAvg(m: Measurements): real
  {
    (m.pumpVDe + m.pumpVNde) / 2.0
  }

  /** The 1X shaft frequency in Hz. */
  function Fundamental(m: Measurements): real
  {
    m.motorRpm / 60.0
  }

  /** The value every reader of "vibration_max_avr" sees. */
  function VibrationMax(m: Measurements): real
  {
    GetOr(m.vibrationMaxAvr, 0.0)
  }

  /**
   * The voltage imbalance divides by the mean phase voltage without a
   * guard: the source fails when the three voltages sum to zero.
   */
  predicate VoltageDefined(m: Measurements)
  {
    m.voltageR + m.voltageS + m.voltageT != 0.0
  }

  function MeanVoltage(m: Measurements): real
  {
    (m.voltageR + m.voltageS + m.voltageT) / 3.0
  }

  /** Largest phase deviation from the mean, in percent of the mean (IEC 60034-1 style). */
  function VoltageImbalance(m: Measurements): (r: real)
    requires VoltageDefined(m)
    ensures MeanVoltage(m) > 0.0 ==> r >= 0.0
  {
    var avg := MeanVoltage(m);
    Max(Max(Abs(m.voltageR - avg), Abs(m.voltageS - avg)), Abs(m.voltageT - avg)) / avg * 100.0
  }

  /** Share of the first peak in the summed amplitude of the three peaks; 0 when the sum is not positive. */
  function Peak1Ratio(m: Measurements): real
  {
    var total := m.peak1Amp + m.peak2Amp + m.peak3Amp;
    if total > 0.0 then m.peak1Amp / total else 0.0
  }

  /** 2X/1X amplitude ratio; 0 when the first amplitude is not positive. */
  function Peak2Ratio(m: Measurements): real
  {
    if m.peak1Amp > 0.0 then m.peak2Amp / m.peak1Amp else 0.0
  }

  /** Peak 3 near twice the 50 Hz line frequency and larger than half of peak 1. */
  predicate IsTwoLineFreqDominant(m: Measurements)
  {
    Abs(m.peak3Freq - 100.0) < 5.0 && m.peak3Amp > 0.5 * m.peak1Amp
  }

  /** Peak 1 within 10% of 1X and carrying more than 80% of the summed amplitude. */
  predicate IsOneXDominant(m: Measurements)
  {
    var f := Fundamental(m);
    Abs(m.peak1Freq - f) < 0.1 * f && Peak1Ratio(m) > 0.80
  }
}
