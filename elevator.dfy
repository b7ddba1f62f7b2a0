/** The bucket-elevator variant (main9.py): a five-channel `SensorSystem`,
    the score-based `PredictiveMaintenance`, the load-driven
    `ControlSystem` with its emergency-stop latch, and the path the buckets
    follow around the belt (`get_belt_position`). */
module Elevator {
  import opened Common
  import SensorModel
  import opened BasicSensors

  /** Positions of the channels, in the dict's insertion order. */
  const SpeedRpm: nat := 0
  const LoadKg: nat := 1
  const TemperatureC: nat := 2
  const VibrationMs2: nat := 3
  const CurrentA: nat := 4

  /** The configuration the elevator's sensor system starts with. */
  function Gauges(): (r: seq<Gauge>)
    ensures |r| == 5 && Ranged(r) && Settled(r)
    ensures forall i, j :: 0 <= i < j < |r| ==> r[i].name != r[j].name
  {
    [ Gauge("speed_rpm", "rpm", 0.0, 0.0, 100.0, 90.0),
      Gauge("load_kg", "kg", 0.0, 0.0, 1000.0, 900.0),
      Gauge("temperature_c", "°C", 25.0, 20.0, 80.0, 70.0),
      Gauge("vibration_ms2", "m/s²", 0.0, 0.0, 20.0, 15.0),
      Gauge("current_a", "A", 0.0, 0.0, 50.0, 45.0) ]
  }

  /** The values `update_sensors` writes before clamping. `speedRpm` is the
      belt speed already divided by the pulley circumference (2·π·0.6 m) and
      scaled to minutes; `noise` holds the four `random.uniform` draws, for
      load (±10), temperature (±2), vibration (±1) and current (±2).
      Temperature and current are computed from the unclamped load. */
  function Raw(speedRpm: real, materialCount: nat, operatingTime: real, noise: seq<real>): (r: seq<real>)
    requires |noise| == 4
    ensures |r| == 5
  {
    var load := 100.0 + (materialCount * 2) as real + noise[0];
    var temperature := 25.0 + load / 1000.0 * 20.0 + Min(operatingTime / 3600.0, 1.0) * 15.0 + noise[1];
    var vibration := speedRpm / 100.0 * 8.0 + Min(operatingTime / 7200.0, 1.0) * 5.0 + noise[2];
    var current := 5.0 + load / 1000.0 * 25.0 + Max(0.0, (temperature - 40.0) * 0.5) + noise[3];
    [speedRpm, load, temperature, vibration, current]
  }

  /** The channel values after one update: the raw values clamped into the
      configured ranges. */
  function Reading(gs: seq<Gauge>, speedRpm: real, materialCount: nat, operatingTime: real, noise: seq<real>): (r: seq<Gauge>)
    requires SameSetup(gs, Gauges()) && |noise| == 4
    ensures SameSetup(r, Gauges()) && Settled(r)
    ensures forall i :: 0 <= i < |r| ==>
      r[i].value == Clamp(Raw(speedRpm, materialCount, operatingTime, noise)[i], r[i].minValue, r[i].maxValue)
  {
    var written := WithValues(gs, Raw(speedRpm, materialCount, operatingTime, noise));
    ClampSettles(written);
    ClampedAll(written)
  }

  class SensorSystem {
    var sensors: seq<Gauge>
    var history: seq<seq<SensorModel.Sample>>
    var alarms: seq<Notice>

    ghost predicate Valid()
      reads this`sensors, this`history
    {
      SameSetup(sensors, Gauges()) && Settled(sensors)
      && |history| == |sensors| && Capped(history)
    }

    constructor ()
      ensures Valid()
      ensures sensors == Gauges() && history == [[], [], [], [], []] && alarms == []
    {
      sensors := Gauges();
      history := [[], [], [], [], []];
      alarms := [];
    }

    /** `update_sensors`: write the new raw values, clamp them, record one
        history sample per channel and check the alarms. `now` is the wall
        clock of this tick. */
    method UpdateSensors(speedRpm: real, materialCount: nat, operatingTime: real, noise: seq<real>, now: real)
      requires Valid() && |noise| == 4
      modifies this`sensors, this`history, this`alarms
      ensures Valid()
      ensures sensors == Reading(old(sensors), speedRpm, materialCount, operatingTime, noise)
      ensures history == Recorded(old(history), sensors, now)
      ensures alarms == old(alarms) + Triggered(sensors, now, false)
    {
      hide Raw, Triggered, Recorded, Push, Newest, ClampedAll, WithValues, Clamp;
      sensors := WithValues(sensors, Raw(speedRpm, materialCount, operatingTime, noise));
      ClampAll();
      StoreHistory(now);
      CheckAlarms(now);
    }

    /** The clamping loop of `update_sensors`. */
    method ClampAll()
      modifies this`sensors
      ensures sensors == ClampedAll(old(sensors))
    {
      var i := 0;
      while i < |sensors|
        invariant 0 <= i <= |sensors| == |old(sensors)|
        invariant forall j :: 0 <= j < i ==> sensors[j] == Clamped(old(sensors)[j])
        invariant forall j :: i <= j < |sensors| ==> sensors[j] == old(sensors)[j]
      {
        var g := sensors[i];
        sensors := sensors[i := g.(value := Max(g.minValue, Min(g.maxValue, g.value)))];
        i := i + 1;
      }
    }

    /** The history loop of `update_sensors`: append, then drop the oldest
        entry past the capacity. */
    method StoreHistory(now: real)
      requires |history| == |sensors|
      modifies this`history
      ensures history == Recorded(old(history), sensors, now)
    {
      var i := 0;
      while i < |history|
        invariant 0 <= i <= |history| == |old(history)|
        invariant forall j :: 0 <= j < i ==>
          history[j] == Push(old(history)[j], SensorModel.Sample(now, sensors[j].value), HistoryCapacity)
        invariant forall j :: i <= j < |history| ==> history[j] == old(history)[j]
      {
        var h := history[i] + [SensorModel.Sample(now, sensors[i].value)];
        if |h| > HistoryCapacity {
          h := h[1..];
        }
        history := history[i := h];
        i := i + 1;
      }
    }

    /** `check_alarms`: one alarm per channel above its threshold, every
        call, with no cooldown. */
    method CheckAlarms(now: real)
      modifies this`alarms
      ensures alarms == old(alarms) + Triggered(sensors, now, false)
    {
      var i := 0;
      while i < |sensors|
        invariant 0 <= i <= |sensors|
        invariant alarms == old(alarms) + Triggered(sensors[..i], now, false)
      {
        TriggeredStep(sensors, now, false, i);
        var g := sensors[i];
        if g.value > g.alarmThreshold {
          var severity := if g.value > g.alarmThreshold * 1.1 then High else Medium;
          alarms := alarms + [Notice(now, g.name, g.value, None, g.alarmThreshold, severity)];
        }
        i := i + 1;
      }
      assert sensors[..i] == sensors;
    }
  }

  /** After an update each channel is logged at most once, exactly when it
      is above its threshold. */
  lemma UpdateAlarms(gs: seq<Gauge>, now: real)
    requires SameSetup(gs, Gauges())
    ensures DistinctSensors(Triggered(gs, now, false))
    ensures forall n :: n in Triggered(gs, now, false) <==>
      exists i :: 0 <= i < |gs| && Over(gs[i]) && n == NoticeOf(gs[i], now, false)
  {
    assert forall i :: 0 <= i < |gs| ==> gs[i].name == Gauges()[i].name;
    TriggeredOnce(gs, now, false);
    TriggeredExactly(gs, now, false);
  }

  /** The five recommendations, in order of the score limits 90, 80, 70, 60
      and 50. */
  const Advices: seq<string> := [
    "Schedule routine inspection",
    "Check belt tension and alignment",
    "Lubricate bearings and inspect pulleys",
    "⚠️ URGENT: Replace worn components",
    "🔴 CRITICAL: Shutdown required for major maintenance"]

  /** The wear one `analyze_trends` call charges: temperature past 80% of
      70 °C, vibration past 70% of 15 m/s², current past 80% of 45 A. */
  function Degradation(gs: seq<Gauge>): (r: real)
    requires |gs| == 5
    ensures r >= 0.0
    ensures r == 0.0 <==>
      gs[TemperatureC].value <= 56.0 && gs[VibrationMs2].value <= 10.5 && gs[CurrentA].value <= 36.0
  {
    Excess(gs[TemperatureC].value, 70.0, 0.8, 10.0)
      + Excess(gs[VibrationMs2].value, 15.0, 0.7, 15.0)
      + Excess(gs[CurrentA].value, 45.0, 0.8, 8.0)
  }

  class PredictiveMaintenance {
    var maintenanceScore: real
    var maintenanceRecommendations: seq<string>

    ghost predicate Valid()
      reads this`maintenanceScore
    {
      0.0 <= maintenanceScore <= 100.0
    }

    constructor ()
      ensures Valid() && maintenanceScore == 100.0 && maintenanceRecommendations == []
    {
      maintenanceScore := 100.0;
      maintenanceRecommendations := [];
    }

    /** `analyze_trends`: charge the degradation against the score, then
        rebuild the recommendations from the new score. */
    method AnalyzeTrends(system: SensorSystem)
      requires Valid() && system.Valid()
      modifies this`maintenanceScore, this`maintenanceRecommendations
      ensures Valid()
      ensures maintenanceScore == Decayed(old(maintenanceScore), Degradation(system.sensors))
      ensures maintenanceScore <= old(maintenanceScore)
      ensures maintenanceRecommendations == Advice(maintenanceScore, Advices)
    {
      var degradation := 0.0;
      var tempRatio := system.sensors[TemperatureC].value / 70.0;
      if tempRatio > 0.8 {
        degradation := degradation + (tempRatio - 0.8) * 10.0;
      }
      var vibRatio := system.sensors[VibrationMs2].value / 15.0;
      if vibRatio > 0.7 {
        degradation := degradation + (vibRatio - 0.7) * 15.0;
      }
      var currRatio := system.sensors[CurrentA].value / 45.0;
      if currRatio > 0.8 {
        degradation := degradation + (currRatio - 0.8) * 8.0;
      }
      assert degradation == Degradation(system.sensors);
      maintenanceScore := Max(0.0, maintenanceScore - degradation * 0.01);
      assert maintenanceScore == Decayed(old(maintenanceScore), Degradation(system.sensors));
      Recommend();
    }

    /** The second half of `analyze_trends`: clear the recommendations and
        append each one whose score limit the current score is below. */
    method Recommend()
      modifies this`maintenanceRecommendations
      ensures maintenanceRecommendations == Advice(maintenanceScore, Advices)
    {
      ghost var n := AdviceCount(maintenanceScore);
      AdviceSelects(maintenanceScore);
      maintenanceRecommendations := [];
      if maintenanceScore < 90.0 {
        maintenanceRecommendations := maintenanceRecommendations + [Advices[0]];
      }
      assert maintenanceRecommendations == Advices[..(if n < 1 then n else 1)];
      if maintenanceScore < 80.0 {
        maintenanceRecommendations := maintenanceRecommendations + [Advices[1]];
      }
      assert maintenanceRecommendations == Advices[..(if n < 2 then n else 2)];
      if maintenanceScore < 70.0 {
        maintenanceRecommendations := maintenanceRecommendations + [Advices[2]];
      }
      assert maintenanceRecommendations == Advices[..(if n < 3 then n else 3)];
      if maintenanceScore < 60.0 {
        maintenanceRecommendations := maintenanceRecommendations + [Advices[3]];
      }
      assert maintenanceRecommendations == Advices[..(if n < 4 then n else 4)];
      if maintenanceScore < 50.0 {
        maintenanceRecommendations := maintenanceRecommendations + [Advices[4]];
      }
      assert maintenanceRecommendations == Advices[..n];
    }
  }

  /** The speed adjustment for a load: slow down by 0.5 m/s past 90% of
      800 kg, speed up by 0.3 m/s below 30% of it, otherwise none. */
  function Adjustment(load: real): real
  {
    var loadRatio := load / 800.0;
    if loadRatio > 0.9 then -0.5
    else if loadRatio < 0.3 then 0.3
    else 0.0
  }

  /** The controller slows the elevator exactly above 720 kg and speeds it
      up exactly below 240 kg, and a heavier load never gets a larger
      adjustment. */
  lemma AdjustmentByLoad(lighter: real, heavier: real)
    requires lighter <= heavier
    ensures Adjustment(heavier) <= Adjustment(lighter)
    ensures Adjustment(heavier) < 0.0 <==> heavier > 720.0
    ensures Adjustment(lighter) > 0.0 <==> lighter < 240.0
    ensures Adjustment(heavier) in {-0.5, 0.0, 0.3}
  {
  }

  /** The emergency conditions: temperature above 75 °C, vibration above
      18 m/s² or current above 48 A. */
  predicate Tripped(gs: seq<Gauge>)
    requires |gs| == 5
  {
    gs[TemperatureC].value > 75.0 || gs[VibrationMs2].value > 18.0 || gs[CurrentA].value > 48.0
  }

  /** Every emergency condition lies above the channel's alarm threshold,
      so a reading that trips the stop has also raised an alarm. */
  lemma TripRaisesAlarm(gs: seq<Gauge>, now: real)
    requires SameSetup(gs, Gauges()) && Tripped(gs)
    ensures Triggered(gs, now, false) != []
  {
    var i := if gs[TemperatureC].value > 75.0 then TemperatureC
      else if gs[VibrationMs2].value > 18.0 then VibrationMs2
      else CurrentA;
    assert gs[i].alarmThreshold == Gauges()[i].alarmThreshold;
    TriggeredExactly(gs, now, false);
    assert NoticeOf(gs[i], now, false) in Triggered(gs, now, false);
  }

  class ControlSystem {
    var autoMode: bool
    var targetSpeed: real
    var speedAdjustment: real
    var emergencyStop: bool

    constructor ()
      ensures autoMode && targetSpeed == 2.0 && speedAdjustment == 0.0 && !emergencyStop
    {
      autoMode := true;
      targetSpeed := 2.0;
      speedAdjustment := 0.0;
      emergencyStop := false;
    }

    /** `update_control`: nothing happens in manual mode or once stopped;
        otherwise the adjustment follows the load and the stop latches on
        an emergency condition. Nothing here clears the stop. */
    method UpdateControl(system: SensorSystem)
      requires system.Valid()
      modifies this`speedAdjustment, this`emergencyStop
      ensures old(emergencyStop) ==> emergencyStop
      ensures !old(autoMode) || old(emergencyStop) ==>
        speedAdjustment == old(speedAdjustment) && emergencyStop == old(emergencyStop)
      ensures autoMode && !old(emergencyStop) ==>
        speedAdjustment == Adjustment(system.sensors[LoadKg].value)
        && (emergencyStop <==> Tripped(system.sensors))
    {
      if !autoMode || emergencyStop {
        return;
      }
      var loadRatio := system.sensors[LoadKg].value / 800.0;
      if loadRatio > 0.9 {
        speedAdjustment := -0.5;
      } else if loadRatio < 0.3 {
        speedAdjustment := 0.3;
      } else {
        speedAdjustment := 0.0;
      }
      if system.sensors[TemperatureC].value > 75.0
        || system.sensors[VibrationMs2].value > 18.0
        || system.sensors[CurrentA].value > 48.0
      {
        emergencyStop := true;
      }
    }
  }

  /** The height of the elevator's head pulley (`elevator_height`). */
  const ElevatorHeight: real := 20.0

  /** A point of the belt path in the elevator's plane (the third
      coordinate is always 0). */
  datatype Point = Point(x: real, y: real)

  /** The four straight runs of the belt, each parameterised by `t` from 0
      at its start to 1 at its end. */
  function Bottom(t: real): Point
  {
    Point(2.0 + t * 6.0, 2.0)
  }

  function Rising(t: real, height: real): Point
  {
    Point(8.0, 2.0 + t * (height - 2.0))
  }

  function Top(t: real, height: real): Point
  {
    Point(8.0 - t * 6.0, height)
  }

  function Falling(t: real, height: real): Point
  {
    Point(2.0, height - t * (height - 2.0))
  }

  /** `get_belt_position`: the progress is taken modulo 1, and each quarter
      of it runs along one side of the loop. */
  function BeltPosition(progress: real, height: real): Point
  {
    var p := FloorMod(progress, 1.0);
    if p < 0.25 then Bottom(p * 4.0)
    else if p < 0.5 then Rising((p - 0.25) * 4.0, height)
    else if p < 0.75 then Top((p - 0.5) * 4.0, height)
    else Falling((p - 0.75) * 4.0, height)
  }

  /** For `0 <= t <= 1`, `t * d` lies between 0 and `d`. */
  lemma ScaledBetween(t: real, d: real)
    requires 0.0 <= t <= 1.0 && d >= 0.0
    ensures 0.0 <= t * d <= d
  {
    var rest := 1.0 - t;
    assert rest * d >= 0.0;
    assert rest * d == d - t * d;
  }

  /** The path stays inside the elevator's frame: between the columns at
      x = 2 and x = 8 and between the foot pulley at y = 2 and the head at
      `height`. */
  lemma {:induction false} BeltInFrame(progress: real, height: real)
    requires height >= 2.0
    ensures 2.0 <= BeltPosition(progress, height).x <= 8.0
    ensures 2.0 <= BeltPosition(progress, height).y <= height
  {
    var p := FloorMod(progress, 1.0);
    var d := height - 2.0;
    if p < 0.25 {
      var t := p * 4.0;
      ScaledBetween(t, 6.0);
      assert BeltPosition(progress, height) == Bottom(t);
    } else if p < 0.5 {
      var t := (p - 0.25) * 4.0;
      ScaledBetween(t, d);
      assert BeltPosition(progress, height) == Rising(t, height);
      assert Rising(t, height).y == 2.0 + t * d;
    } else if p < 0.75 {
      var t := (p - 0.5) * 4.0;
      ScaledBetween(t, 6.0);
      assert BeltPosition(progress, height) == Top(t, height);
    } else {
      var t := (p - 0.75) * 4.0;
      ScaledBetween(t, d);
      assert BeltPosition(progress, height) == Falling(t, height);
      assert Falling(t, height).y == height - t * d;
    }
  }

  /** Each run ends where the next begins, and the last ends where the
      first begins, so the path is one closed loop. */
  lemma RunsJoin(height: real)
    ensures Bottom(1.0) == Rising(0.0, height)
    ensures Rising(1.0, height) == Top(0.0, height)
    ensures Top(1.0, height) == Falling(0.0, height)
    ensures Falling(1.0, height) == Bottom(0.0)
  {
  }

  /** The position at each quarter mark is the corner where the previous
      run ends. */
  lemma CornersOnPath(height: real)
    ensures BeltPosition(0.0, height) == Falling(1.0, height)
    ensures BeltPosition(0.25, height) == Bottom(1.0)
    ensures BeltPosition(0.5, height) == Rising(1.0, height)
    ensures BeltPosition(0.75, height) == Top(1.0, height)
  {
    assert FloorMod(0.0, 1.0) == 0.0;
    assert FloorMod(0.25, 1.0) == 0.25;
    assert FloorMod(0.5, 1.0) == 0.5;
    assert FloorMod(0.75, 1.0) == 0.75;
  }

  /** In the elevator as built, 20 m high, every bucket stays between the
      columns and between y = 2 and the head at y = 20. */
  lemma ElevatorBeltInFrame(progress: real)
    ensures 2.0 <= BeltPosition(progress, ElevatorHeight).x <= 8.0
    ensures 2.0 <= BeltPosition(progress, ElevatorHeight).y <= 20.0
  {
    BeltInFrame(progress, ElevatorHeight);
  }

  /** The corners of the elevator's path as built: (2, 2), (8, 2),
      (8, 20) and (2, 20). */
  lemma ElevatorCorners()
    ensures BeltPosition(0.0, ElevatorHeight) == Point(2.0, 2.0)
    ensures BeltPosition(0.25, ElevatorHeight) == Point(8.0, 2.0)
    ensures BeltPosition(0.5, ElevatorHeight) == Point(8.0, 20.0)
    ensures BeltPosition(0.75, ElevatorHeight) == Point(2.0, 20.0)
  {
    CornersOnPath(ElevatorHeight);
  }

  /** A whole extra lap brings a bucket back to the same point. */
  lemma BeltPeriodic(progress: real, height: real)
    ensures BeltPosition(progress + 1.0, height) == BeltPosition(progress, height)
  {
    FloorModShift(progress, 1.0);
  }
}
