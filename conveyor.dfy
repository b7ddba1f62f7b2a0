/** The conveyor-belt variant (convy.py and main_conv.py, which agree line
    for line apart from how their non-ASCII text is encoded): a six-channel
    `SensorSystem` that also measures belt slippage, a
    `PredictiveMaintenance` that also charges slippage, and a
    `ControlSystem` that picks a bounded target speed from the load. */
module Conveyor {
  import opened Common
  import SensorModel
  import opened BasicSensors

  /** Positions of the channels, in the dict's insertion order. */
  const Speed: nat := 0
  const Load: nat := 1
  const Temperature: nat := 2
  const Vibration: nat := 3
  const Current: nat := 4
  const Slippage: nat := 5

  /** The configuration the conveyor's sensor system starts with. */
  function Gauges(): (r: seq<Gauge>)
    ensures |r| == 6 && Ranged(r) && Settled(r)
    ensures forall i, j :: 0 <= i < j < |r| ==> r[i].name != r[j].name
  {
    [ Gauge("speed", "m/s", 0.0, 0.0, 4.0, 3.2),
      Gauge("load", "%", 0.0, 0.0, 100.0, 85.0),
      Gauge("temperature", "°C", 25.0, 20.0, 80.0, 70.0),
      Gauge("vibration", "m/s²", 0.0, 0.0, 20.0, 15.0),
      Gauge("current", "A", 0.0, 0.0, 50.0, 45.0),
      Gauge("slippage", "%", 0.0, 0.0, 10.0, 8.0) ]
  }

  /** Units of material the belt carries at full load. */
  const MaxCapacity: nat := 50

  /** The load as a percentage of capacity, capped at 100. */
  function LoadPercent(materialCount: nat): (r: real)
    ensures 0.0 <= r <= 100.0
    ensures materialCount <= MaxCapacity ==> r == (2 * materialCount) as real
    ensures r == 100.0 <==> materialCount >= MaxCapacity
  {
    Min(100.0, materialCount as real / MaxCapacity as real * 100.0)
  }

  /** The values `update_sensors` writes before clamping. `noise` holds the
      five `random.uniform` draws, for speed (±0.05), temperature (±1),
      vibration (±0.5), current (±1) and slippage (±0.2); the load has
      none. Vibration follows the commanded belt speed, not the measured
      one. */
  function Raw(beltSpeed: real, materialCount: nat, operatingTime: real, noise: seq<real>): (r: seq<real>)
    requires |noise| == 5
    ensures |r| == 6
  {
    var speed := beltSpeed + noise[0];
    var load := LoadPercent(materialCount);
    var temperature := 25.0 + load / 100.0 * 25.0 + Min(operatingTime / 3600.0, 1.0) * 15.0 + noise[1];
    var vibration := beltSpeed / 3.0 * 10.0 + Min(operatingTime / 7200.0, 1.0) * 6.0 + noise[2];
    var current := 5.0 + load / 100.0 * 25.0 + Max(0.0, (temperature - 40.0) * 0.5) + noise[3];
    var slippage := 0.5 + load / 100.0 * 5.0 + Min(operatingTime / 10000.0, 1.0) * 4.0 + noise[4];
    [speed, load, temperature, vibration, current, slippage]
  }

  /** The channel values after one update: the raw values clamped into the
      configured ranges. */
  function Reading(gs: seq<Gauge>, beltSpeed: real, materialCount: nat, operatingTime: real, noise: seq<real>): (r: seq<Gauge>)
    requires SameSetup(gs, Gauges()) && |noise| == 5
    ensures SameSetup(r, Gauges()) && Settled(r)
    ensures forall i :: 0 <= i < |r| ==>
      r[i].value == Clamp(Raw(beltSpeed, materialCount, operatingTime, noise)[i], r[i].minValue, r[i].maxValue)
    ensures r[Load].value == LoadPercent(materialCount)
  {
    var written := WithValues(gs, Raw(beltSpeed, materialCount, operatingTime, noise));
    ClampSettles(written);
    ClampedAll(written)
  }

  class SensorSystem {
    var sensors: seq<Gauge>
    var history: seq<seq<SensorModel.Sample>>
    var alarms: seq<Notice>

    ghost predicate Valid()
      reads this`sensors, this`history
    {
      SameSetup(sensors, Gauges()) && Settled(sensors)
      && |history| == |sensors| && Capped(history)
    }

    constructor ()
      ensures Valid()
      ensures sensors == Gauges() && history == [[], [], [], [], [], []] && alarms == []
    {
      sensors := Gauges();
      history := [[], [], [], [], [], []];
      alarms := [];
    }

    /** `update_sensors`: write the new raw values, clamp them, record one
        history sample per channel and check the alarms. `now` is the wall
        clock of this tick. */
    method UpdateSensors(beltSpeed: real, materialCount: nat, operatingTime: real, noise: seq<real>, now: real)
      requires Valid() && |noise| == 5
      modifies this`sensors, this`history, this`alarms
      ensures Valid()
      ensures sensors == Reading(old(sensors), beltSpeed, materialCount, operatingTime, noise)
      ensures history == Recorded(old(history), sensors, now)
      ensures alarms == old(alarms) + Triggered(sensors, now, true)
    {
      hide Raw, Triggered, Recorded, Push, Newest, ClampedAll, WithValues, Clamp;
      sensors := WithValues(sensors, Raw(beltSpeed, materialCount, operatingTime, noise));
      ClampAll();
      StoreHistory(now);
      CheckAlarms(now);
    }

    /** The clamping loop of `update_sensors`. */
    method ClampAll()
      modifies this`sensors
      ensures sensors == ClampedAll(old(sensors))
    {
      var i := 0;
      while i < |sensors|
        invariant 0 <= i <= |sensors| == |old(sensors)|
        invariant forall j :: 0 <= j < i ==> sensors[j] == Clamped(old(sensors)[j])
        invariant forall j :: i <= j < |sensors| ==> sensors[j] == old(sensors)[j]
      {
        var g := sensors[i];
        sensors := sensors[i := g.(value := Max(g.minValue, Min(g.maxValue, g.value)))];
        i := i + 1;
      }
    }

    /** The history loop of `update_sensors`: append, then drop the oldest
        entry past the capacity. */
    method StoreHistory(now: real)
      requires |history| == |sensors|
      modifies this`history
      ensures history == Recorded(old(history), sensors, now)
    {
      var i := 0;
      while i < |history|
        invariant 0 <= i <= |history| == |old(history)|
        invariant forall j :: 0 <= j < i ==>
          history[j] == Push(old(history)[j], SensorModel.Sample(now, sensors[j].value), HistoryCapacity)
        invariant forall j :: i <= j < |history| ==> history[j] == old(history)[j]
      {
        var h := history[i] + [SensorModel.Sample(now, sensors[i].value)];
        if |h| > HistoryCapacity {
          h := h[1..];
        }
        history := history[i := h];
        i := i + 1;
      }
    }

    /** `check_alarms`: one alarm per channel above its threshold, every
        call, with no cooldown; each alarm carries the channel's unit. */
    method CheckAlarms(now: real)
      modifies this`alarms
      ensures alarms == old(alarms) + Triggered(sensors, now, true)
    {
      var i := 0;
      while i < |sensors|
        invariant 0 <= i <= |sensors|
        invariant alarms == old(alarms) + Triggered(sensors[..i], now, true)
      {
        TriggeredStep(sensors, now, true, i);
        var g := sensors[i];
        if g.value > g.alarmThreshold {
          var severity := if g.value > g.alarmThreshold * 1.1 then High else Medium;
          alarms := alarms + [Notice(now, g.name, g.value, Some(g.unit), g.alarmThreshold, severity)];
        }
        i := i + 1;
      }
      assert sensors[..i] == sensors;
    }
  }

  /** After an update each channel is logged at most once, exactly when it
      is above its threshold, and its alarm names the channel's unit. */
  lemma UpdateAlarms(gs: seq<Gauge>, now: real)
    requires SameSetup(gs, Gauges())
    ensures DistinctSensors(Triggered(gs, now, true))
    ensures forall n :: n in Triggered(gs, now, true) <==>
      exists i :: 0 <= i < |gs| && Over(gs[i]) && n == NoticeOf(gs[i], now, true)
    ensures forall n :: n in Triggered(gs, now, true) ==>
      n.unit.Some? && exists i :: 0 <= i < |gs| && n.sensor == gs[i].name && n.unit.value == gs[i].unit
  {
    assert forall i :: 0 <= i < |gs| ==> gs[i].name == Gauges()[i].name;
    TriggeredOnce(gs, now, true);
    TriggeredExactly(gs, now, true);
  }

  /** The five recommendations, in order of the score limits 90, 80, 70, 60
      and 50. */
  const Advices: seq<string> := [
    "Schedule routine inspection",
    "Check belt tension and alignment",
    "Lubricate bearings and inspect pulleys",
    "⚠️ URGENT: Check for belt wear and misalignment",
    "🔴 CRITICAL: Shutdown required for belt replacement"]

  /** The wear one `analyze_trends` call charges: vibration past 70% of
      15 m/s², temperature past 80% of 70 °C, slippage past 80% of 8% and
      current past 80% of 45 A. */
  function Degradation(gs: seq<Gauge>): (r: real)
    requires |gs| == 6
    ensures r >= 0.0
    ensures r == 0.0 <==>
      gs[Vibration].value <= 10.5 && gs[Temperature].value <= 56.0
      && gs[Slippage].value <= 6.4 && gs[Current].value <= 36.0
  {
    Excess(gs[Vibration].value, 15.0, 0.7, 15.0)
      + Excess(gs[Temperature].value, 70.0, 0.8, 10.0)
      + Excess(gs[Slippage].value, 8.0, 0.8, 12.0)
      + Excess(gs[Current].value, 45.0, 0.8, 8.0)
  }

  class PredictiveMaintenance {
    var maintenanceScore: real
    var maintenanceRecommendations: seq<string>

    ghost predicate Valid()
      reads this`maintenanceScore
    {
      0.0 <= maintenanceScore <= 100.0
    }

    constructor ()
      ensures Valid() && maintenanceScore == 100.0 && maintenanceRecommendations == []
    {
      maintenanceScore := 100.0;
      maintenanceRecommendations := [];
    }

    /** `analyze_trends`: charge the degradation against the score, then
        rebuild the recommendations from the new score. */
    method AnalyzeTrends(system: SensorSystem)
      requires Valid() && system.Valid()
      modifies this`maintenanceScore, this`maintenanceRecommendations
      ensures Valid()
      ensures maintenanceScore == Decayed(old(maintenanceScore), Degradation(system.sensors))
      ensures maintenanceScore <= old(maintenanceScore)
      ensures maintenanceRecommendations == Advice(maintenanceScore, Advices)
    {
      var degradation := 0.0;
      var vibRatio := system.sensors[Vibration].value / 15.0;
      if vibRatio > 0.7 {
        degradation := degradation + (vibRatio - 0.7) * 15.0;
      }
      var tempRatio := system.sensors[Temperature].value / 70.0;
      if tempRatio > 0.8 {
        degradation := degradation + (tempRatio - 0.8) * 10.0;
      }
      var slipRatio := system.sensors[Slippage].value / 8.0;
      if slipRatio > 0.8 {
        degradation := degradation + (slipRatio - 0.8) * 12.0;
      }
      var currRatio := system.sensors[Current].value / 45.0;
      if currRatio > 0.8 {
        degradation := degradation + (currRatio - 0.8) * 8.0;
      }
      assert degradation == Degradation(system.sensors);
      maintenanceScore := Max(0.0, maintenanceScore - degradation * 0.01);
      assert maintenanceScore == Decayed(old(maintenanceScore), Degradation(system.sensors));
      Recommend();
    }

    /** The second half of `analyze_trends`: clear the recommendations and
        append each one whose score limit the current score is below. */
    method Recommend()
      modifies this`maintenanceRecommendations
      ensures maintenanceRecommendations == Advice(maintenanceScore, Advices)
    {
      ghost var n := AdviceCount(maintenanceScore);
      AdviceSelects(maintenanceScore);
      maintenanceRecommendations := [];
      if maintenanceScore < 90.0 {
        maintenanceRecommendations := maintenanceRecommendations + [Advices[0]];
      }
      assert maintenanceRecommendations == Advices[..(if n < 1 then n else 1)];
      if maintenanceScore < 80.0 {
        maintenanceRecommendations := maintenanceRecommendations + [Advices[1]];
      }
      assert maintenanceRecommendations == Advices[..(if n < 2 then n else 2)];
      if maintenanceScore < 70.0 {
        maintenanceRecommendations := maintenanceRecommendations + [Advices[2]];
      }
      assert maintenanceRecommendations == Advices[..(if n < 3 then n else 3)];
      if maintenanceScore < 60.0 {
        maintenanceRecommendations := maintenanceRecommendations + [Advices[3]];
      }
      assert maintenanceRecommendations == Advices[..(if n < 4 then n else 4)];
      if maintenanceScore < 50.0 {
        maintenanceRecommendations := maintenanceRecommendations + [Advices[4]];
      }
      assert maintenanceRecommendations == Advices[..n];
    }
  }

  /** The speed the controller chooses for a load percentage: 0.8 m/s past
      90%, 2.0 m/s below 30%, 1.5 m/s otherwise. */
  function Chosen(load: real): real
  {
    var loadRatio := load / 100.0;
    if loadRatio > 0.9 then 0.8
    else if loadRatio < 0.3 then 2.0
    else 1.5
  }

  /** The target speed after the limits `max(0.5, min(3.0, ·))`. */
  function TargetSpeed(load: real): real
  {
    Clamp(Chosen(load), 0.5, 3.0)
  }

  /** The target is one of the three set speeds and always within the
      limits; the limits never change the chosen speed; a heavier load
      never gets a faster belt. */
  lemma TargetSpeedByLoad(lighter: real, heavier: real)
    requires lighter <= heavier
    ensures TargetSpeed(heavier) in {0.8, 1.5, 2.0}
    ensures 0.5 <= TargetSpeed(heavier) <= 3.0
    ensures TargetSpeed(heavier) == Chosen(heavier)
    ensures TargetSpeed(heavier) <= TargetSpeed(lighter)
    ensures TargetSpeed(heavier) == 0.8 <==> heavier > 90.0
    ensures TargetSpeed(lighter) == 2.0 <==> lighter < 30.0
  {
  }

  /** The emergency conditions: temperature above 75 °C, vibration above
      18 m/s², current above 48 A or slippage above 9%. */
  predicate Tripped(gs: seq<Gauge>)
    requires |gs| == 6
  {
    gs[Temperature].value > 75.0 || gs[Vibration].value > 18.0
    || gs[Current].value > 48.0 || gs[Slippage].value > 9.0
  }

  /** Every emergency condition lies above the channel's alarm threshold,
      so a reading that trips the stop has also raised an alarm. */
  lemma TripRaisesAlarm(gs: seq<Gauge>, now: real)
    requires SameSetup(gs, Gauges()) && Tripped(gs)
    ensures Triggered(gs, now, true) != []
  {
    var i := if gs[Temperature].value > 75.0 then Temperature
      else if gs[Vibration].value > 18.0 then Vibration
      else if gs[Current].value > 48.0 then Current
      else Slippage;
    assert gs[i].alarmThreshold == Gauges()[i].alarmThreshold;
    TriggeredExactly(gs, now, true);
    assert NoticeOf(gs[i], now, true) in Triggered(gs, now, true);
  }

  class ControlSystem {
    var autoMode: bool
    var targetSpeed: real
    var emergencyStop: bool

    constructor ()
      ensures autoMode && targetSpeed == 1.5 && !emergencyStop
    {
      autoMode := true;
      targetSpeed := 1.5;
      emergencyStop := false;
    }

    /** `update_control`: nothing happens in manual mode or once stopped;
        otherwise the target speed follows the load, within its limits,
        and the stop latches on an emergency condition. Nothing here
        clears the stop. */
    method UpdateControl(system: SensorSystem)
      requires system.Valid()
      modifies this`targetSpeed, this`emergencyStop
      ensures old(emergencyStop) ==> emergencyStop
      ensures !old(autoMode) || old(emergencyStop) ==>
        targetSpeed == old(targetSpeed) && emergencyStop == old(emergencyStop)
      ensures autoMode && !old(emergencyStop) ==>
        targetSpeed == TargetSpeed(system.sensors[Load].value)
        && (emergencyStop <==> Tripped(system.sensors))
    {
      if !autoMode || emergencyStop {
        return;
      }
      var loadRatio := system.sensors[Load].value / 100.0;
      if loadRatio > 0.9 {
        targetSpeed := 0.8;
      } else if loadRatio < 0.3 {
        targetSpeed := 2.0;
      } else {
        targetSpeed := 1.5;
      }
      targetSpeed := Max(0.5, Min(3.0, targetSpeed));
      if system.sensors[Temperature].value > 75.0
        || system.sensors[Vibration].value > 18.0
        || system.sensors[Current].value > 48.0
        || system.sensors[Slippage].value > 9.0
      {
        emergencyStop := true;
      }
    }
  }
}
