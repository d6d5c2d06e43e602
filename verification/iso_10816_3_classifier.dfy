/**
 * Level 2 of the diagnostic engine: the ISO 10816-3:2001 Table 2 severity zone of
 * an overall velocity reading, with limits chosen by machine group, speed
 * and foundation; and the DE/NDE direction averages whose maximum the
 * engine classifies.
 */
module Iso10816Classifier {
  import opened PumpData

  /** Zone A is the best condition, zone D the worst. */
  datatype Zone = A | B | C | D

  function ZoneRank(z: Zone): nat
  {
    match z
    case A => 0
    case B => 1
    case C => 2
    case D => 3
  }

  /** Which row of the limit table was applied. */
  datatype LimitsBasis = RigidGroup3 | FlexibleGroup3 | DefaultLimits

  datatype ZoneLimits = ZoneLimits(limitB: real, limitC: real, limitD: real, basis: LimitsBasis)

  datatype StatusColor = Success | Info | StatusWarning | Error

  datatype ZoneResult = ZoneResult(
    zone: Zone,
    velocityRms: real,
    limitB: real,
    limitC: real,
    limitD: real,
    remark: string,
    action: string,
    clause: string,
    statusColor: StatusColor,
    foundation: Foundation,
    basis: LimitsBasis,
    group: nat)

  /** Machine group by rated power: up to 15 kW, up to 75 kW, above. */
  function MachineGroup(powerKw: real): (g: nat)
    ensures 1 <= g <= 3
    ensures g == 1 <==> powerKw <= 15.0
    ensures g == 3 <==> powerKw > 75.0
  {
    if powerKw <= 15.0 then 1
    else if powerKw <= 75.0 then 2
    else 3
  }

  /** A larger machine is never put in a lower group. */
  lemma MachineGroupMonotone(p1: real, p2: real)
    requires p1 <= p2
    ensures MachineGroup(p1) <= MachineGroup(p2)
  {
  }

  /**
   * The foundation-specific rows apply only to group 3 between 1200 (exclusive)
   * and 3600 rpm (inclusive); everything else falls back to 4.5 / 7.1 / 11.2.
   */
  function Limits(group: nat, rpm: real, foundation: Foundation): (l: ZoneLimits)
    ensures 0.0 < l.limitB < l.limitC < l.limitD
    ensures l.limitD >= 11.2
    ensures l.basis != DefaultLimits <==> group == 3 && 1200.0 < rpm <= 3600.0
    ensures l.basis == RigidGroup3 <==> l.basis != DefaultLimits && foundation == Rigid
    ensures l.basis == FlexibleGroup3 <==> l.basis != DefaultLimits && foundation == Flexible
    ensures l.basis == RigidGroup3 ==> l.limitB == 2.8 && l.limitC == 7.1 && l.limitD == 11.2
    ensures l.basis == FlexibleGroup3 ==> l.limitB == 4.5 && l.limitC == 11.2 && l.limitD == 18.0
    ensures l.basis == DefaultLimits ==> l.limitB == 4.5 && l.limitC == 7.1 && l.limitD == 11.2
  {
    if group == 3 && 1200.0 < rpm && rpm <= 3600.0 then
      match foundation
      case Rigid => ZoneLimits(2.8, 7.1, 11.2, RigidGroup3)
      case Flexible => ZoneLimits(4.5, 11.2, 18.0, FlexibleGroup3)
    else
      ZoneLimits(4.5, 7.1, 11.2, DefaultLimits)
  }

  /** A flexible foundation never has a tighter limit than a rigid one at the same speed and group. */
  lemma FlexibleLimitsNoStricter(group: nat, rpm: real)
    ensures Limits(group, rpm, Flexible).limitB >= Limits(group, rpm, Rigid).limitB
    ensures Limits(group, rpm, Flexible).limitC >= Limits(group, rpm, Rigid).limitC
    ensures Limits(group, rpm, Flexible).limitD >= Limits(group, rpm, Rigid).limitD
  {
  }

  /** Zone boundaries are inclusive on the upper side: a reading equal to a limit stays in the better zone. */
  function ZoneOf(v: real, l: ZoneLimits): Zone
  {
    if v <= l.limitB then A
    else if v <= l.limitC then B
    else if v <= l.limitD then C
    else D
  }

  function Remark(z: Zone): string
  {
    match z
    case A => "New machine condition or after repair"
    case B => "Acceptable for unlimited operation"
    case C => "UNSATISFACTORY - Short-term operation only"
    case D => "UNACCEPTABLE - Vibration causes damage"
  }

  function Action(z: Zone): string
  {
    match z
    case A => "Continue normal operation"
    case B => "Routine monitoring (monthly)"
    case C => "Schedule corrective maintenance within 72 hours"
    case D => "IMMEDIATE SHUTDOWN REQUIRED"
  }

  function Clause(z: Zone): string
  {
    match z
    case A => "ISO 10816-3 Clause 5.1"
    case B => "ISO 10816-3 Clause 5.2"
    case C => "ISO 10816-3 Clause 5.3"
    case D => "ISO 10816-3 Clause 5.4"
  }

  function Color(z: Zone): StatusColor
  {
    match z
    case A => Success
    case B => Info
    case C => StatusWarning
    case D => Error
  }

  /** Classify a velocity reading (mm/s RMS) against ISO 10816-3 Table 2. */
  function ClassifyZone(velocityRms: real, rpm: real, powerKw: real, foundation: Foundation): (r: ZoneResult)
    ensures r.group == MachineGroup(powerKw) && r.velocityRms == velocityRms && r.foundation == foundation
    ensures var l := Limits(r.group, rpm, foundation);
      r.limitB == l.limitB && r.limitC == l.limitC && r.limitD == l.limitD && r.basis == l.basis
    ensures r.limitB < r.limitC < r.limitD
    ensures r.zone == A <==> velocityRms <= r.limitB
    ensures r.zone == B <==> r.limitB < velocityRms <= r.limitC
    ensures r.zone == C <==> r.limitC < velocityRms <= r.limitD
    ensures r.zone == D <==> r.limitD < velocityRms
    ensures r.action == "IMMEDIATE SHUTDOWN REQUIRED" <==> r.zone == D
    ensures r.clause == Clause(r.zone) && r.remark == Remark(r.zone)
  {
    var group := MachineGroup(powerKw);
    var l := Limits(group, rpm, foundation);
    var zone := ZoneOf(velocityRms, l);
    ZoneResult(zone, velocityRms, l.limitB, l.limitC, l.limitD,
      Remark(zone), Action(zone), Clause(zone), Color(zone), foundation, l.basis, group)
  }

  /** A higher reading never lands in a better zone. */
  lemma ZoneMonotone(v1: real, v2: real, rpm: real, powerKw: real, foundation: Foundation)
    requires v1 <= v2
    ensures ZoneRank(ClassifyZone(v1, rpm, powerKw, foundation).zone) <= ZoneRank(ClassifyZone(v2, rpm, powerKw, foundation).zone)
  {
  }

  /** For the same reading, a flexible foundation never gives a worse zone than a rigid one. */
  lemma FlexibleZoneNoWorse(v: real, rpm: real, powerKw: real)
    ensures ZoneRank(ClassifyZone(v, rpm, powerKw, Flexible).zone) <= ZoneRank(ClassifyZone(v, rpm, powerKw, Rigid).zone)
  {
    FlexibleLimitsNoStricter(MachineGroup(powerKw), rpm);
  }

  /** Zone D always means a reading above 11.2 mm/s, the safety gate's vibration limit. */
  lemma ZoneDAboveGateLimit(v: real, rpm: real, powerKw: real, foundation: Foundation)
    requires ClassifyZone(v, rpm, powerKw, foundation).zone == D
    ensures v > 11.2
  {
  }

  /** The six measuring directions, in the order the source lists them. */
  datatype Direction = MotorH | MotorV | MotorA | PumpH | PumpV | PumpA

  function DirectionAt(i: nat): Direction
    requires i < 6
  {
    [MotorH, MotorV, MotorA, PumpH, PumpV, PumpA][i]
  }

  datatype DirectionAverages = DirectionAverages(
    motorHAvr: real, motorVAvr: real, motorAAvr: real,
    pumpHAvr: real, pumpVAvr: real, pumpAAvr: real,
    maxVelocity: real,
    maxDirection: Direction,
    allVelocities: seq<real>)

  /** The largest element, as Python's `max` returns it. */
  function SeqMax(s: seq<real>): (r: real)
    requires |s| > 0
    ensures forall i :: 0 <= i < |s| ==> s[i] <= r
    ensures r in s
  {
    if |s| == 1 then s[0]
    else
      var rest := SeqMax(s[1..]);
      if s[0] >= rest then s[0] else rest
  }

  /** The position of the first occurrence, as Python's `list.index` returns it. */
  function FirstIndexOf(s: seq<real>, x: real): (r: nat)
    requires x in s
    ensures r < |s| && s[r] == x
    ensures forall j :: 0 <= j < r ==> s[j] != x
  {
    if s[0] == x then 0
    else
      assert x in s[1..];
      1 + FirstIndexOf(s[1..], x)
  }

  /** DE/NDE averages per direction and the direction carrying the largest one. */
  function DirectionAveragesOf(m: Measurements): (r: DirectionAverages)
    ensures |r.allVelocities| == 6
    ensures r.allVelocities == [r.motorHAvr, r.motorVAvr, r.motorAAvr, r.pumpHAvr, r.pumpVAvr, r.pumpAAvr]
    ensures r.motorHAvr == (m.motorHDe + m.motorHNde) / 2.0
    ensures r.motorVAvr == (m.motorVDe + m.motorVNde) / 2.0
    ensures r.motorAAvr == (m.motorADe + m.motorANde) / 2.0
    ensures r.pumpHAvr == (m.pumpHDe + m.pumpHNde) / 2.0
    ensures r.pumpVAvr == (m.pumpVDe + m.pumpVNde) / 2.0 == PumpVerticalAvg(m)
    ensures r.pumpAAvr == (m.pumpADe + m.pumpANde) / 2.0 == PumpAxialAvg(m)
    ensures forall i :: 0 <= i < 6 ==> r.allVelocities[i] <= r.maxVelocity
    ensures exists i :: 0 <= i < 6 && r.allVelocities[i] == r.maxVelocity && r.maxDirection == DirectionAt(i) &&
              (forall j :: 0 <= j < i ==> r.allVelocities[j] < r.maxVelocity)
  {
    var mh := (m.motorHDe + m.motorHNde) / 2.0;
    var mv := (m.motorVDe + m.motorVNde) / 2.0;
    var ma := (m.motorADe + m.motorANde) / 2.0;
    var ph := (m.pumpHDe + m.pumpHNde) / 2.0;
    var pv := (m.pumpVDe + m.pumpVNde) / 2.0;
    var pa := (m.pumpADe + m.pumpANde) / 2.0;
    var all := [mh, mv, ma, ph, pv, pa];
    var top := SeqMax(all);
    var idx := FirstIndexOf(all, top);
    DirectionAverages(mh, mv, ma, ph, pv, pa, top, DirectionAt(idx), all)
  }
}
