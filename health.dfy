/** The enhanced system's derived quantities: the equipment health score,
    the failure indicators with the remaining useful life, the performance
    metrics, the maintenance recommendation list and the machine status
    reported with each transmission (enhanced_sensor_system.py). */
module Health {
  import opened Common
  import opened SensorModel

  // ---------------------------------------------------------------------
  // Health score

  /** How far the value lies outside the optimal range, relative to the
      bound it crossed; 0 inside the range. */
  function Deviation(c: Channel): (d: real)
    requires c.optimalLow > 0.0 && c.optimalHigh > 0.0
    ensures d >= 0.0
    ensures d == 0.0 <==> c.optimalLow <= c.value <= c.optimalHigh
  {
    if c.value < c.optimalLow then RelativeGap(c.optimalLow - c.value, c.optimalLow)
    else if c.value > c.optimalHigh then RelativeGap(c.value - c.optimalHigh, c.optimalHigh)
    else 0.0
  }

  function RelativeGap(gap: real, bound: real): (r: real)
    requires bound > 0.0
    ensures gap > 0.0 ==> r > 0.0
    ensures gap >= 0.0 ==> r >= 0.0
  {
    gap / bound
  }

  /** The points one channel costs: `min(10, deviation * 20)` when it is
      outside its optimal range. */
  function ChannelPenalty(c: Channel): (p: real)
    requires c.optimalLow > 0.0 && c.optimalHigh > 0.0
    ensures 0.0 <= p <= 10.0
    ensures p == 0.0 <==> c.optimalLow <= c.value <= c.optimalHigh
  {
    if c.value < c.optimalLow || c.value > c.optimalHigh then Min(10.0, Deviation(c) * 20.0)
    else 0.0
  }

  ghost predicate AllOptimal(cs: seq<Channel>)
  {
    forall i :: 0 <= i < |cs| ==> cs[i].optimalLow <= cs[i].value <= cs[i].optimalHigh
  }

  /** The channel penalties of `cs`, summed in dict order. */
  function TotalPenalty(cs: seq<Channel>): (r: real)
    requires PositiveOptima(cs)
    ensures 0.0 <= r <= 10.0 * |cs| as real
    ensures r == 0.0 <==> AllOptimal(cs)
  {
    if cs == [] then 0.0
    else
      var init := cs[..|cs| - 1];
      assert PositiveOptima(init) by {
        forall i | 0 <= i < |init| ensures init[i] == cs[i] { }
      }
      var r := TotalPenalty(init) + ChannelPenalty(cs[|cs| - 1]);
      assert AllOptimal(cs) <==> AllOptimal(init) && AllOptimal([cs[|cs| - 1]]) by {
        assert cs == init + [cs[|cs| - 1]];
      }
      r
  }

  /** One more channel adds its own penalty to the running sum. */
  lemma PenaltyStep(cs: seq<Channel>, i: nat)
    requires PositiveOptima(cs) && i < |cs|
    ensures PositiveOptima(cs[..i]) && PositiveOptima(cs[..i + 1])
    ensures TotalPenalty(cs[..i + 1]) == TotalPenalty(cs[..i]) + ChannelPenalty(cs[i])
  {
    assert cs[..i + 1][..i] == cs[..i];
  }

  /** Ageing: `min(hours / 8760, 0.1) * 15`, at most 1.5 points. */
  function AgePenalty(hours: real): (r: real)
    ensures r <= 1.5
    ensures hours >= 0.0 ==> 0.0 <= r && (r == 0.0 <==> hours == 0.0)
  {
    Min(hours / 8760.0, 0.1) * 15.0
  }

  predicate Severe(a: Alarm)
  {
    a.severity == High || a.severity == Critical
  }

  function SevereCount(alarms: seq<Alarm>): (r: nat)
    ensures r <= |alarms|
    ensures r == 0 <==> forall i :: 0 <= i < |alarms| ==> !Severe(alarms[i])
  {
    if alarms == [] then 0
    else SevereCount(alarms[1..]) + (if Severe(alarms[0]) then 1 else 0)
  }

  /** Number of alarms of the log that the health score looks at. */
  const RecentAlarmWindow: nat := 20

  /** Two points per `HIGH` or `CRITICAL` alarm among the newest 20, at most 20. */
  function AlarmPenalty(alarms: seq<Alarm>): (r: real)
    ensures 0.0 <= r <= 20.0
    ensures r == 0.0 <==> SevereCount(Newest(alarms, RecentAlarmWindow)) == 0
  {
    Min(20.0, 2.0 * SevereCount(Newest(alarms, RecentAlarmWindow)) as real)
  }

  /** `max(0, min(100, 100 - penalties))`. */
  function HealthScore(cs: seq<Channel>, hours: real, alarms: seq<Alarm>): (h: real)
    requires PositiveOptima(cs)
    ensures 0.0 <= h <= 100.0
  {
    Clamp(100.0 - TotalPenalty(cs) - AgePenalty(hours) - AlarmPenalty(alarms), 0.0, 100.0)
  }

  /** With the five configured channels the score never falls below
      `100 - 5 * 10 - 1.5 - 20`: the clamp at 0 is never reached. */
  lemma HealthFloor(cs: seq<Channel>, hours: real, alarms: seq<Alarm>)
    requires |cs| == ChannelCount && PositiveOptima(cs)
    ensures HealthScore(cs, hours, alarms) >= 28.5
  {
  }

  /** A perfect score is reached exactly when every channel is inside its
      optimal range, no hours have been run and none of the newest 20
      alarms is `HIGH` or `CRITICAL`. */
  lemma PerfectHealth(cs: seq<Channel>, hours: real, alarms: seq<Alarm>)
    requires PositiveOptima(cs) && hours >= 0.0
    ensures HealthScore(cs, hours, alarms) == 100.0 <==>
      AllOptimal(cs) && hours == 0.0 && SevereCount(Newest(alarms, RecentAlarmWindow)) == 0
  {
    var t, a, p := TotalPenalty(cs), AgePenalty(hours), AlarmPenalty(alarms);
    assert HealthScore(cs, hours, alarms) == Clamp(100.0 - t - a - p, 0.0, 100.0);
  }

  // ---------------------------------------------------------------------
  // Failure indicators and remaining useful life

  datatype Indicators = Indicators(
    bearingWear: real,
    beltDegradation: real,
    motorEfficiency: real,
    lubricationQuality: real)

  const InitialIndicators: Indicators := Indicators(0.0, 0.0, 1.0, 1.0)

  /** Vibration above 5 m/s² plus the vibration trend; capped at 1 but not
      floored (a falling trend can drive it negative). */
  function BearingWear(vibration: real, vibrationSlope: real): (r: real)
    ensures r <= 1.0
    ensures vibrationSlope >= 0.0 ==> r >= 0.0
    ensures vibration <= 5.0 && vibrationSlope <= 0.0 ==> r <= 0.0
  {
    Min(1.0, Max(0.0, (vibration - 5.0) / 15.0) + vibrationSlope * 0.1)
  }

  /** Relative speed deviation from 50 rpm plus operating-hours wear. */
  function BeltDegradation(speed: real, hours: real): (r: real)
    ensures r <= 1.0
    ensures hours >= 0.0 ==> r >= 0.0
  {
    Min(1.0, Abs(speed - 50.0) / 50.0 + hours / 5000.0)
  }

  /** One minus the relative current deviation from 25 A and the current
      trend; floored at 0 but not capped (a falling trend can push it
      above 1). */
  function MotorEfficiency(current: real, currentSlope: real): (r: real)
    ensures r >= 0.0
    ensures currentSlope >= 0.0 ==> r <= 1.0
  {
    Max(0.0, 1.0 - Abs(current - 25.0) / 25.0 - currentSlope * 0.05)
  }

  /** The worst (largest) of the four indicators. */
  function Worst(ind: Indicators): (r: real)
    ensures r >= ind.bearingWear && r >= ind.beltDegradation
    ensures r >= ind.motorEfficiency && r >= ind.lubricationQuality
    ensures r == ind.bearingWear || r == ind.beltDegradation
         || r == ind.motorEfficiency || r == ind.lubricationQuality
  {
    Max(Max(ind.bearingWear, ind.beltDegradation), Max(ind.motorEfficiency, ind.lubricationQuality))
  }

  /** `max(0, (1 - worst) * 100)`. */
  function RemainingLife(ind: Indicators): (r: real)
    ensures r >= 0.0
    ensures r == 0.0 <==> Worst(ind) >= 1.0
    ensures Worst(ind) <= 0.0 ==> r >= 100.0
  {
    Max(0.0, (1.0 - Worst(ind)) * 100.0)
  }

  /** The indicators after one prediction step; the lubrication quality is
      never recomputed and keeps its previous value. */
  function Predict(previous: Indicators, vibration: real, vibrationSlope: real,
                   speed: real, hours: real, current: real, currentSlope: real): (r: Indicators)
    ensures r.lubricationQuality == previous.lubricationQuality
    ensures r.bearingWear == BearingWear(vibration, vibrationSlope)
    ensures r.beltDegradation == BeltDegradation(speed, hours)
    ensures r.motorEfficiency == MotorEfficiency(current, currentSlope)
  {
    Indicators(BearingWear(vibration, vibrationSlope), BeltDegradation(speed, hours),
               MotorEfficiency(current, currentSlope), previous.lubricationQuality)
  }

  /** The lubrication quality starts at 1 and is never lowered, so the worst
      indicator is always at least 1 and the remaining useful life is 0 after
      every prediction step, whatever the sensors read. */
  lemma LifeAlwaysExhausted(previous: Indicators, vibration: real, vibrationSlope: real,
                            speed: real, hours: real, current: real, currentSlope: real)
    requires previous.lubricationQuality == 1.0
    ensures RemainingLife(Predict(previous, vibration, vibrationSlope, speed, hours,
                                  current, currentSlope)) == 0.0
  {
  }

  // ---------------------------------------------------------------------
  // Performance metrics

  datatype Metrics = Metrics(efficiency: real, uptime: real, throughput: real, energyConsumption: real)

  const InitialMetrics: Metrics := Metrics(0.95, 0.98, 0.85, 100.0)

  /** Power drawn, `current * 0.4`. */
  function Power(current: real): (r: real)
    ensures current >= 0.0 ==> r >= 0.0
  {
    current * 0.4
  }

  /** `min(1, 30 / max(power, 1))`: full efficiency up to 30 kW. */
  function Efficiency(current: real): real
  {
    Min(1.0, 30.0 / Max(Power(current), 1.0))
  }

  /** The efficiency lies in `(0, 1]`; it is 1 up to 30 kW and falls as
      `30 / power` above. */
  lemma EfficiencyRange(current: real)
    ensures 0.0 < Efficiency(current) <= 1.0
    ensures Power(current) <= 30.0 ==> Efficiency(current) == 1.0
    ensures Power(current) > 30.0 ==> Efficiency(current) == 30.0 / Power(current)
  {
    var p := Max(Power(current), 1.0);
    var q := 30.0 / p;
    assert q * p == 30.0;
    if p <= 30.0 {
      assert q >= 1.0;
    } else {
      assert q < 1.0;
    }
  }

  function CriticalCount(alarms: seq<Alarm>): (r: nat)
    ensures r <= |alarms|
    ensures r == 0 <==> forall i :: 0 <= i < |alarms| ==> alarms[i].severity != Critical
  {
    if alarms == [] then 0
    else CriticalCount(alarms[1..]) + (if alarms[0].severity == Critical then 1 else 0)
  }

  /** `max(0.5, 1 - 0.1 * critical alarms among the newest 10)`. */
  function Uptime(alarms: seq<Alarm>): (r: real)
    ensures 0.5 <= r <= 1.0
    ensures r == 1.0 <==> CriticalCount(Newest(alarms, 10)) == 0
  {
    Max(0.5, 1.0 - CriticalCount(Newest(alarms, 10)) as real * 0.1)
  }

  /** `speed / 60 * min(1, load / 600) * 0.95`. */
  function Throughput(speed: real, load: real): real
  {
    speed / 60.0 * Min(1.0, load / 600.0) * 0.95
  }

  /** Throughput is never negative for non-negative readings, never above
      the speed-only figure, and equal to it from 600 kg on. */
  lemma ThroughputRange(speed: real, load: real)
    ensures speed >= 0.0 && load >= 0.0 ==> 0.0 <= Throughput(speed, load) <= speed / 60.0 * 0.95
    ensures load >= 600.0 ==> Throughput(speed, load) == speed / 60.0 * 0.95
  {
    var s, l := speed / 60.0, Min(1.0, load / 600.0);
    assert Throughput(speed, load) == s * l * 0.95;
    ThroughputBound(s, l);
  }

  lemma ThroughputBound(s: real, l: real)
    requires l <= 1.0
    ensures s >= 0.0 && l >= 0.0 ==> 0.0 <= s * l * 0.95 <= s * 0.95
  {
    if s >= 0.0 && l >= 0.0 {
      var gap := 1.0 - l;
      assert s * gap >= 0.0;
      assert s * l == s - s * gap;
    }
  }

  /** The four metrics of one `_calculate_performance_metrics` call. */
  function Measure(speed: real, load: real, current: real, alarms: seq<Alarm>): Metrics
  {
    Metrics(Efficiency(current), Uptime(alarms), Throughput(speed, load), Power(current))
  }

  // ---------------------------------------------------------------------
  // Maintenance recommendations

  datatype Kind = GeneralInspection | BearingReplacement | BeltInspection | MotorService
                | ScheduledMaintenance

  datatype Priority = LowPriority | MediumPriority | HighPriority

  datatype Recommendation = Recommendation(kind: Kind, priority: Priority, estimatedDays: int)

  /** `max(1, int((health - 60) / 5))`. */
  function InspectionDays(health: real): (r: int)
    ensures r >= 1
    ensures health >= 65.0 ==> r as real <= (health - 60.0) / 5.0 < r as real + 1.0
  {
    var d := Truncate((health - 60.0) / 5.0);
    if d >= 1 then d else 1
  }

  function GeneralInspectionFor(health: real): (r: Recommendation)
    ensures r.kind == GeneralInspection && r.estimatedDays >= 1
    ensures r.priority == MediumPriority <==> health > 70.0
    ensures r.priority == HighPriority <==> health <= 70.0
  {
    Recommendation(GeneralInspection, if health > 70.0 then MediumPriority else HighPriority,
                   InspectionDays(health))
  }

  const BearingAdvice: Recommendation := Recommendation(BearingReplacement, HighPriority, 7)
  const BeltAdvice: Recommendation := Recommendation(BeltInspection, MediumPriority, 14)
  const MotorAdvice: Recommendation := Recommendation(MotorService, MediumPriority, 21)
  const ScheduleAdvice: Recommendation := Recommendation(ScheduledMaintenance, LowPriority, 30)

  /** Every 500 operating hours (within the first hour past the multiple). */
  predicate ScheduleDue(hours: real)
  {
    hours > 500.0 && FloorMod(hours, 500.0) < 1.0
  }

  /** Within the `k`-th 500-hour window, scheduled maintenance is due
      exactly during the window's first hour, and never in the first
      window or at exactly 500 hours. */
  lemma ScheduleDueWindow(hours: real, k: int)
    requires k as real * 500.0 <= hours < (k + 1) as real * 500.0
    ensures ScheduleDue(hours) <==> hours > 500.0 && hours < k as real * 500.0 + 1.0
  {
    var q := hours / 500.0;
    assert q * 500.0 == hours;
    assert k as real <= q < (k + 1) as real;
    assert q.Floor == k;
    assert FloorMod(hours, 500.0) == hours - k as real * 500.0;
  }

  function When(b: bool, r: Recommendation): (s: seq<Recommendation>)
    ensures |s| <= 1 && (r in s <==> b) && (forall x :: x in s ==> x == r)
  {
    if b then [r] else []
  }

  /** The list rebuilt from scratch, in the fixed order of the checks. */
  function Recommendations(health: real, ind: Indicators, hours: real): (r: seq<Recommendation>)
    ensures |r| <= 5
  {
    Assemble(health < 85.0, GeneralInspectionFor(health), ind.bearingWear > 0.7,
             ind.beltDegradation > 0.6, ind.motorEfficiency < 0.8, ScheduleDue(hours))
  }

  /** The five conditional appends, given the outcome of each check. */
  function Assemble(general: bool, inspection: Recommendation, bearing: bool, belt: bool,
                    motor: bool, scheduled: bool): (r: seq<Recommendation>)
    ensures |r| <= 5
  {
    When(general, inspection) + When(bearing, BearingAdvice) + When(belt, BeltAdvice)
    + When(motor, MotorAdvice) + When(scheduled, ScheduleAdvice)
  }

  function KindsOf(rs: seq<Recommendation>): (r: seq<Kind>)
    ensures |r| == |rs| && forall i :: 0 <= i < |rs| ==> r[i] == rs[i].kind
  {
    if rs == [] then [] else [rs[0].kind] + KindsOf(rs[1..])
  }

  lemma {:induction false} KindsOfConcat(a: seq<Recommendation>, b: seq<Recommendation>)
    ensures KindsOf(a + b) == KindsOf(a) + KindsOf(b)
  {
    assert |KindsOf(a + b)| == |KindsOf(a) + KindsOf(b)|;
    forall i | 0 <= i < |a + b| ensures KindsOf(a + b)[i] == (KindsOf(a) + KindsOf(b))[i] {
      if i < |a| {
        assert (a + b)[i] == a[i];
      } else {
        assert (a + b)[i] == b[i - |a|];
      }
    }
  }

  function KindIf(b: bool, k: Kind): (r: seq<Kind>)
  {
    if b then [k] else []
  }

  lemma KindsOfWhen(b: bool, r: Recommendation)
    ensures KindsOf(When(b, r)) == KindIf(b, r.kind)
  {
    if b {
      assert When(b, r) == [r];
      assert KindsOf([r]) == [r.kind] + KindsOf([]);
    }
  }

  lemma AssembledKinds(general: bool, inspection: Recommendation, bearing: bool, belt: bool,
                       motor: bool, scheduled: bool)
    requires inspection.kind == GeneralInspection
    ensures KindsOf(Assemble(general, inspection, bearing, belt, motor, scheduled)) ==
      KindIf(general, GeneralInspection) + KindIf(bearing, BearingReplacement)
      + KindIf(belt, BeltInspection) + KindIf(motor, MotorService)
      + KindIf(scheduled, ScheduledMaintenance)
  {
    var g := When(general, inspection);
    var b := When(bearing, BearingAdvice);
    var t := When(belt, BeltAdvice);
    var m := When(motor, MotorAdvice);
    var s := When(scheduled, ScheduleAdvice);
    KindsOfWhen(general, inspection);
    KindsOfWhen(bearing, BearingAdvice);
    KindsOfWhen(belt, BeltAdvice);
    KindsOfWhen(motor, MotorAdvice);
    KindsOfWhen(scheduled, ScheduleAdvice);
    KindsOfConcat(g, b);
    KindsOfConcat(g + b, t);
    KindsOfConcat(g + b + t, m);
    KindsOfConcat(g + b + t + m, s);
  }

  /** Each kind appears exactly when its condition holds, and the kinds
      follow the order of the checks: health, bearing, belt, motor, hours. */
  lemma RecommendationKinds(health: real, ind: Indicators, hours: real)
    ensures KindsOf(Recommendations(health, ind, hours)) ==
      KindIf(health < 85.0, GeneralInspection)
      + KindIf(ind.bearingWear > 0.7, BearingReplacement)
      + KindIf(ind.beltDegradation > 0.6, BeltInspection)
      + KindIf(ind.motorEfficiency < 0.8, MotorService)
      + KindIf(ScheduleDue(hours), ScheduledMaintenance)
  {
    AssembledKinds(health < 85.0, GeneralInspectionFor(health), ind.bearingWear > 0.7,
                   ind.beltDegradation > 0.6, ind.motorEfficiency < 0.8, ScheduleDue(hours));
  }

  /** The entry each kind of recommendation is listed with. */
  function Expected(k: Kind, health: real): (r: Recommendation)
    ensures r.kind == k
  {
    match k
    case GeneralInspection => GeneralInspectionFor(health)
    case BearingReplacement => BearingAdvice
    case BeltInspection => BeltAdvice
    case MotorService => MotorAdvice
    case ScheduledMaintenance => ScheduleAdvice
  }

  /** Every entry of the rebuilt list is the fixed entry for its kind: the
      general inspection with `Medium` priority above 70 health and `High`
      otherwise and at least one day out, the others with their constant
      priority and lead time. */
  lemma RecommendationContents(health: real, ind: Indicators, hours: real)
    ensures var rs := Recommendations(health, ind, hours);
      forall i :: 0 <= i < |rs| ==> rs[i] == Expected(rs[i].kind, health)
  {
    var g := When(health < 85.0, GeneralInspectionFor(health));
    var b := When(ind.bearingWear > 0.7, BearingAdvice);
    var t := When(ind.beltDegradation > 0.6, BeltAdvice);
    var m := When(ind.motorEfficiency < 0.8, MotorAdvice);
    var s := When(ScheduleDue(hours), ScheduleAdvice);
    var rs := Recommendations(health, ind, hours);
    assert rs == g + b + t + m + s;
    forall i | 0 <= i < |rs| ensures rs[i] == Expected(rs[i].kind, health) {
      assert rs[i] in g + b + t + m + s;
    }
  }

  // ---------------------------------------------------------------------
  // Machine status

  datatype MachineState = Running | Maintenance | Error

  /** The status sent with each transmission: maintenance below 70 health,
      otherwise an error when this tick raised a `CRITICAL` alarm. */
  function MachineStatus(health: real, newAlarms: seq<Alarm>): (r: MachineState)
    ensures r == Maintenance <==> health < 70.0
    ensures r == Error <==>
      health >= 70.0 && exists i :: 0 <= i < |newAlarms| && newAlarms[i].severity == Critical
    ensures r == Running <==>
      health >= 70.0 && CriticalCount(newAlarms) == 0
  {
    if health < 70.0 then Maintenance
    else if CriticalCount(newAlarms) > 0 then Error
    else Running
  }
}
