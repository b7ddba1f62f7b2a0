/** The enhanced sensor system of the bucket elevator
    (enhanced_sensor_system.py, `EnhancedSensorSystem`): the per-channel
    state, the histories, the alarm log with its cooldown map, the health
    score, the failure indicators, the trends and the recommendation list,
    updated in place by one `update_sensors` tick and by the configuration
    mutators. */
module EnhancedSystem {
  import opened Common
  import opened SensorModel
  import opened Regression
  import opened Health
  import opened AlarmEngine

  const MaxHistoryPoints: nat := 1000

  /** The share of the gap to the target temperature closed per tick. */
  const TempChangeRate: real := 0.1

  /** Thermal inertia: the temperature moves a tenth of the way towards
      the target each tick, so it never overshoots. */
  function ThermalLag(current: real, target: real): (r: real)
    ensures target - r == (target - current) * 0.9
    ensures current <= target ==> current <= r <= target
    ensures target <= current ==> target <= r <= current
  {
    current + (target - current) * TempChangeRate
  }

  /** A channel after the physics step: the raw reading, except that the
      temperature lags behind its raw target. */
  function Raw(c: Channel, raw: real, i: nat): (r: Channel)
    ensures r == c.(value := r.value)
    ensures i == Temperature ==> r.value == ThermalLag(c.value, raw)
    ensures i != Temperature ==> r.value == raw
  {
    c.(value := if i == Temperature then ThermalLag(c.value, raw) else raw)
  }

  /** A channel after calibration: scaled by its factor, and vibration
      floored at 0. */
  function Calibrated(c: Channel, i: nat): (r: Channel)
    ensures r == c.(value := r.value)
    ensures i != Vibration ==> r.value == c.value * c.calibrationFactor
    ensures i == Vibration ==> r.value >= 0.0 && r.value >= c.value * c.calibrationFactor
    ensures i == Vibration && c.value * c.calibrationFactor >= 0.0 ==>
      r.value == c.value * c.calibrationFactor
  {
    var scaled := c.value * c.calibrationFactor;
    c.(value := if i == Vibration then Max(0.0, scaled) else scaled)
  }

  /** A channel after the bounds step. */
  function Bounded(c: Channel): (r: Channel)
    ensures r == c.(value := r.value)
    ensures c.minValue <= c.maxValue ==> c.minValue <= r.value <= c.maxValue
    ensures c.minValue <= c.value <= c.maxValue ==> r == c
    ensures c.minValue <= c.maxValue && c.value < c.minValue ==> r.value == c.minValue
    ensures c.minValue <= c.maxValue && c.value > c.maxValue ==> r.value == c.maxValue
  {
    c.(value := Clamp(c.value, c.minValue, c.maxValue))
  }

  /** The channels after physics, calibration, noise and bounds. */
  function Settle(cs: seq<Channel>, raw: seq<real>, noise: seq<real>): (r: seq<Channel>)
    requires |raw| == |cs| && |noise| == |cs|
    ensures |r| == |cs|
  {
    seq(|cs|, i requires 0 <= i < |cs| =>
      var c := Calibrated(Raw(cs[i], raw[i], i), i);
      Bounded(c.(value := c.value + noise[i])))
  }

  /** Settling changes only the values, and leaves every value of a
      configured channel list inside its bounds. */
  lemma SettleBounded(cs: seq<Channel>, raw: seq<real>, noise: seq<real>)
    requires Configured(cs) && |raw| == |cs| && |noise| == |cs|
    ensures SameConfig(Settle(cs, raw, noise), cs)
    ensures Configured(Settle(cs, raw, noise)) && InBounds(Settle(cs, raw, noise))
  {
  }

  /** The trends after one analysis pass over the histories. */
  function Analyzed(ts: seq<Trend>, hs: seq<seq<Sample>>): (r: seq<Trend>)
    requires |hs| == |ts|
    ensures |r| == |ts|
  {
    seq(|ts|, i requires 0 <= i < |ts| => Refit(ts[i], Values(hs[i])))
  }

  ghost predicate TrendsBounded(ts: seq<Trend>)
  {
    forall i :: 0 <= i < |ts| ==> 0.0 <= ts[i].rSquared <= 1.0
  }

  class EnhancedSensorSystem {
    var sensors: seq<Channel>
    var history: seq<seq<Sample>>
    var alarms: seq<Alarm>
    var lastAlarmTime: Cooldowns
    var healthScore: real
    var metrics: Metrics
    var recommendations: seq<Recommendation>
    var remainingUsefulLife: real
    var operatingHours: real
    var trendData: seq<Trend>
    var indicators: Indicators
    var readingCount: nat

    ghost predicate Valid()
      reads this`sensors, this`history, this`alarms, this`lastAlarmTime, this`healthScore
      reads this`remainingUsefulLife, this`indicators, this`trendData
    {
      Configured(sensors) && InBounds(sensors)
      && |history| == ChannelCount
      && (forall i :: 0 <= i < |history| ==> |history[i]| <= MaxHistoryPoints)
      && |alarms| <= LogCapacity && Spaced(alarms, lastAlarmTime)
      && 0.0 <= healthScore <= 100.0
      && remainingUsefulLife >= 0.0
      && indicators.lubricationQuality == 1.0
      && |trendData| == ChannelCount && TrendsBounded(trendData)
    }

    constructor ()
      ensures Valid()
      ensures sensors == InitialChannels() && history == [[], [], [], [], []]
      ensures alarms == [] && lastAlarmTime == map[]
      ensures healthScore == 100.0 && metrics == InitialMetrics && recommendations == []
      ensures remainingUsefulLife == 85.0 && operatingHours == 0.0 && readingCount == 0
      ensures trendData == [Neutral, Neutral, Neutral, Neutral, Neutral]
      ensures indicators == InitialIndicators
    {
      sensors := InitialChannels();
      history := [[], [], [], [], []];
      alarms := [];
      lastAlarmTime := map[];
      healthScore := 100.0;
      metrics := InitialMetrics;
      recommendations := [];
      remainingUsefulLife := 85.0;
      operatingHours := 0.0;
      trendData := [Neutral, Neutral, Neutral, Neutral, Neutral];
      indicators := InitialIndicators;
      readingCount := 0;
    }

    /** The `_update_*_sensor` step, with each formula's result passed in
        (`raw[Temperature]` is the target temperature). */
    method WriteRawValues(raw: seq<real>)
      requires |sensors| == ChannelCount && |raw| == ChannelCount
      modifies this`sensors
      ensures |sensors| == |old(sensors)|
      ensures forall i :: 0 <= i < |sensors| ==> sensors[i] == Raw(old(sensors)[i], raw[i], i)
    {
      sensors := sensors[Speed := sensors[Speed].(value := raw[Speed])];
      sensors := sensors[Load := sensors[Load].(value := raw[Load])];
      var current := sensors[Temperature].value;
      sensors := sensors[Temperature := sensors[Temperature].(value := ThermalLag(current, raw[Temperature]))];
      sensors := sensors[Vibration := sensors[Vibration].(value := raw[Vibration])];
      sensors := sensors[Current := sensors[Current].(value := raw[Current])];
    }

    /** `_apply_sensor_calibration` */
    method ApplyCalibration()
      modifies this`sensors
      ensures |sensors| == |old(sensors)|
      ensures forall i :: 0 <= i < |sensors| ==> sensors[i] == Calibrated(old(sensors)[i], i)
    {
      var i := 0;
      while i < |sensors|
        invariant 0 <= i <= |sensors| == |old(sensors)|
        invariant forall j :: 0 <= j < i ==> sensors[j] == Calibrated(old(sensors)[j], j)
        invariant forall j :: i <= j < |sensors| ==> sensors[j] == old(sensors)[j]
      {
        var c := sensors[i];
        var v := c.value * c.calibrationFactor;
        if i == Vibration {
          v := Max(0.0, v);
        }
        sensors := sensors[i := c.(value := v)];
        i := i + 1;
      }
    }

    /** `_add_realistic_noise`, with each channel's noise sample passed in. */
    method AddNoise(noise: seq<real>)
      requires |noise| == |sensors|
      modifies this`sensors
      ensures |sensors| == |old(sensors)|
      ensures forall i :: 0 <= i < |sensors| ==>
        sensors[i] == old(sensors)[i].(value := old(sensors)[i].value + noise[i])
    {
      var i := 0;
      while i < |sensors|
        invariant 0 <= i <= |sensors| == |old(sensors)|
        invariant forall j :: 0 <= j < i ==>
          sensors[j] == old(sensors)[j].(value := old(sensors)[j].value + noise[j])
        invariant forall j :: i <= j < |sensors| ==> sensors[j] == old(sensors)[j]
      {
        sensors := sensors[i := sensors[i].(value := sensors[i].value + noise[i])];
        i := i + 1;
      }
    }

    /** `_enforce_sensor_bounds` */
    method EnforceBounds()
      modifies this`sensors
      ensures |sensors| == |old(sensors)|
      ensures forall i :: 0 <= i < |sensors| ==> sensors[i] == Bounded(old(sensors)[i])
    {
      var i := 0;
      while i < |sensors|
        invariant 0 <= i <= |sensors| == |old(sensors)|
        invariant forall j :: 0 <= j < i ==> sensors[j] == Bounded(old(sensors)[j])
        invariant forall j :: i <= j < |sensors| ==> sensors[j] == old(sensors)[j]
      {
        var c := sensors[i];
        sensors := sensors[i := c.(value := Max(c.minValue, Min(c.maxValue, c.value)))];
        i := i + 1;
      }
    }

    /** `_store_historical_data`: one sample per channel, stamped `now`, the
        oldest dropped once a history holds more than 1000. */
    method StoreHistory(now: real)
      requires |history| == |sensors|
      modifies this`history
      ensures |history| == |old(history)|
      ensures forall i :: 0 <= i < |history| ==>
        history[i] == Push(old(history)[i], Sample(now, sensors[i].value), MaxHistoryPoints)
    {
      var i := 0;
      while i < |history|
        invariant 0 <= i <= |history| == |old(history)|
        invariant forall j :: 0 <= j < i ==>
          history[j] == Push(old(history)[j], Sample(now, sensors[j].value), MaxHistoryPoints)
        invariant forall j :: i <= j < |history| ==> history[j] == old(history)[j]
      {
        var h := history[i] + [Sample(now, sensors[i].value)];
        if |h| > MaxHistoryPoints {
          h := h[1..];
        }
        history := history[i := h];
        i := i + 1;
      }
    }

    /** `_calculate_performance_metrics` */
    method CalculatePerformanceMetrics()
      requires |sensors| == ChannelCount
      modifies this`metrics
      ensures metrics == Measure(sensors[Speed].value, sensors[Load].value, sensors[Current].value, alarms)
    {
      var actualPower := sensors[Current].value * 0.4;
      var efficiency := Min(1.0, 30.0 / Max(actualPower, 1.0));
      assert efficiency == Efficiency(sensors[Current].value);
      var recentCritical := CriticalCount(Newest(alarms, 10));
      var uptime := Max(0.5, 1.0 - recentCritical as real * 0.1);
      assert uptime == Uptime(alarms);
      var throughput := Throughput(sensors[Speed].value, sensors[Load].value);
      assert actualPower == Power(sensors[Current].value);
      metrics := Metrics(efficiency, uptime, throughput, actualPower);
    }

    /** `_update_health_score`: the channel penalties accumulated in a loop,
        then the age and alarm penalties, then the clamp. */
    method UpdateHealthScore()
      requires PositiveOptima(sensors)
      modifies this`healthScore
      ensures healthScore == HealthScore(sensors, operatingHours, alarms)
    {
      hide TotalPenalty;
      var health := 100.0;
      var i := 0;
      while i < |sensors|
        invariant 0 <= i <= |sensors|
        invariant PositiveOptima(sensors[..i])
        invariant health == 100.0 - TotalPenalty(sensors[..i])
      {
        var c := sensors[i];
        PenaltyStep(sensors, i);
        ghost var before := health;
        if c.value < c.optimalLow || c.value > c.optimalHigh {
          var deviation;
          if c.value < c.optimalLow {
            deviation := (c.optimalLow - c.value) / c.optimalLow;
          } else {
            deviation := (c.value - c.optimalHigh) / c.optimalHigh;
          }
          assert deviation == Deviation(c);
          health := health - Min(10.0, deviation * 20.0);
        }
        assert health == before - ChannelPenalty(c);
        i := i + 1;
      }
      assert sensors[..i] == sensors;
      var ageFactor := Min(operatingHours / 8760.0, 0.1) * 15.0;
      health := health - ageFactor;
      var recentAlarms := SevereCount(Newest(alarms, RecentAlarmWindow));
      health := health - Min(20.0, recentAlarms as real * 2.0);
      healthScore := Max(0.0, Min(100.0, health));
    }

    /** `_update_failure_predictions` */
    method UpdateFailurePredictions()
      requires |sensors| == ChannelCount && |trendData| == ChannelCount
      modifies this`indicators, this`remainingUsefulLife
      ensures indicators == Predict(old(indicators), sensors[Vibration].value, trendData[Vibration].slope,
                                    sensors[Speed].value, operatingHours,
                                    sensors[Current].value, trendData[Current].slope)
      ensures remainingUsefulLife == RemainingLife(indicators)
      ensures old(indicators).lubricationQuality == 1.0 ==> remainingUsefulLife == 0.0
    {
      indicators := Predict(indicators, sensors[Vibration].value, trendData[Vibration].slope,
                            sensors[Speed].value, operatingHours,
                            sensors[Current].value, trendData[Current].slope);
      remainingUsefulLife := Max(0.0, (1.0 - Worst(indicators)) * 100.0);
    }

    /** `_perform_trend_analysis`: every channel with at least ten samples is
        refitted over its newest twenty. */
    method PerformTrendAnalysis()
      requires |trendData| == |history|
      modifies this`trendData
      ensures trendData == Analyzed(old(trendData), history)
    {
      var i := 0;
      while i < |trendData|
        invariant 0 <= i <= |trendData| == |old(trendData)|
        invariant forall j :: 0 <= j < i ==> trendData[j] == Refit(old(trendData)[j], Values(history[j]))
        invariant forall j :: i <= j < |trendData| ==> trendData[j] == old(trendData)[j]
      {
        if |history[i]| >= MinPoints {
          var recent := Newest(Values(history[i]), WindowSize);
          match Fit(recent)
          case Some(t) =>
            trendData := trendData[i := t];
          case None =>
        }
        i := i + 1;
      }
    }

    /** `_check_trend_alarms`, with the clock reading passed in. */
    method CheckTrendAlarms(now: real) returns (trendAlarms: seq<Alarm>)
      requires |trendData| == |sensors|
      modifies this`alarms, this`lastAlarmTime
      ensures Pass(trendAlarms, lastAlarmTime) == TrendPass(sensors, trendData, now, Pass([], old(lastAlarmTime)))
      ensures alarms == old(alarms) + trendAlarms
    {
      trendAlarms := [];
      var i := 0;
      while i < |sensors|
        invariant 0 <= i <= |sensors|
        invariant Pass(trendAlarms, lastAlarmTime)
          == TrendPass(sensors[..i], trendData[..i], now, Pass([], old(lastAlarmTime)))
        invariant alarms == old(alarms) + trendAlarms
      {
        var c, t := sensors[i], trendData[i];
        TrendPassStep(sensors, trendData, now, Pass([], old(lastAlarmTime)), i);
        ghost var before := Pass(trendAlarms, lastAlarmTime);
        var key := TrendKey(c.name);
        if t.rSquared > 0.7 && t.slope > 0.0 {
          var predicted := c.value + t.slope * 10.0;
          if predicted > c.alarmThreshold {
            if key !in lastAlarmTime || now - lastAlarmTime[key] > TrendCooldown {
              var alarm := Alarm(now, c.name, Medium, 3, c.value, c.alarmThreshold);
              trendAlarms := trendAlarms + [alarm];
              alarms := alarms + [alarm];
              lastAlarmTime := lastAlarmTime[key := now];
            }
          }
        }
        assert Pass(trendAlarms, lastAlarmTime) == TrendStep(before, c, t, now);
        i := i + 1;
      }
      assert sensors[..i] == sensors && trendData[..i] == trendData;
    }

    /** The threshold loop of `_check_comprehensive_alarms`: per channel,
        `CRITICAL` above the critical threshold, else `HIGH` above the alarm
        threshold, unless the same key fired less than 30 s ago. */
    method CheckThresholdAlarms(now: real) returns (newAlarms: seq<Alarm>)
      modifies this`alarms, this`lastAlarmTime
      ensures Pass(newAlarms, lastAlarmTime) == DirectPass(sensors, now, Pass([], old(lastAlarmTime)))
      ensures alarms == old(alarms) + newAlarms
    {
      newAlarms := [];
      var i := 0;
      while i < |sensors|
        invariant 0 <= i <= |sensors|
        invariant Pass(newAlarms, lastAlarmTime) == DirectPass(sensors[..i], now, Pass([], old(lastAlarmTime)))
        invariant alarms == old(alarms) + newAlarms
      {
        var c := sensors[i];
        DirectPassStep(sensors, now, Pass([], old(lastAlarmTime)), i);
        ghost var before := Pass(newAlarms, lastAlarmTime);
        if c.value > c.criticalThreshold || c.value > c.alarmThreshold {
          var severity, priority;
          if c.value > c.criticalThreshold {
            severity, priority := Critical, 1;
          } else {
            severity, priority := High, 2;
          }
          assert Classify(c) == Some(severity);
          var key := ThresholdKey(c.name, severity);
          if !(key in lastAlarmTime && now - lastAlarmTime[key] < AlarmCooldown) {
            var threshold := if severity == Critical then c.criticalThreshold else c.alarmThreshold;
            var alarm := Alarm(now, c.name, severity, priority, c.value, threshold);
            assert alarm == ThresholdAlarm(c, severity, now);
            newAlarms := newAlarms + [alarm];
            alarms := alarms + [alarm];
            lastAlarmTime := lastAlarmTime[key := now];
          }
        }
        assert Pass(newAlarms, lastAlarmTime) == DirectStep(before, c, now);
        i := i + 1;
      }
      assert sensors[..i] == sensors;
    }

    /** `_check_comprehensive_alarms`, with the clock reading passed in:
        the threshold loop, the trend loop, then the log trimmed to 100. */
    method CheckComprehensiveAlarms(now: real) returns (newAlarms: seq<Alarm>)
      requires |trendData| == |sensors|
      modifies this`alarms, this`lastAlarmTime
      ensures var r := Check(old(alarms), old(lastAlarmTime), sensors, trendData, now);
        alarms == r.log && lastAlarmTime == r.cooldowns && newAlarms == r.raised
    {
      hide Check, DirectPass, TrendPass;
      newAlarms := CheckThresholdAlarms(now);
      ghost var direct := Pass(newAlarms, lastAlarmTime);
      var trendAlarms := CheckTrendAlarms(now);
      CheckAssembled(old(alarms), old(lastAlarmTime), sensors, trendData, now, direct,
                     Pass(trendAlarms, lastAlarmTime));
      newAlarms := newAlarms + trendAlarms;
      if |alarms| > LogCapacity {
        alarms := alarms[|alarms| - LogCapacity..];
      }
    }

    /** `_generate_maintenance_recommendations`: cleared, then rebuilt. */
    method GenerateMaintenanceRecommendations()
      modifies this`recommendations
      ensures recommendations == Recommendations(healthScore, indicators, operatingHours)
    {
      recommendations := [];
      if healthScore < 85.0 {
        var priority := if healthScore > 70.0 then MediumPriority else HighPriority;
        var days := Truncate((healthScore - 60.0) / 5.0);
        recommendations := recommendations
          + [Recommendation(GeneralInspection, priority, if days >= 1 then days else 1)];
      }
      ghost var general := When(healthScore < 85.0, GeneralInspectionFor(healthScore));
      assert recommendations == general;
      if indicators.bearingWear > 0.7 {
        recommendations := recommendations + [BearingAdvice];
      }
      ghost var bearing := When(indicators.bearingWear > 0.7, BearingAdvice);
      assert recommendations == general + bearing;
      if indicators.beltDegradation > 0.6 {
        recommendations := recommendations + [BeltAdvice];
      }
      ghost var belt := When(indicators.beltDegradation > 0.6, BeltAdvice);
      assert recommendations == general + bearing + belt;
      if indicators.motorEfficiency < 0.8 {
        recommendations := recommendations + [MotorAdvice];
      }
      ghost var motor := When(indicators.motorEfficiency < 0.8, MotorAdvice);
      assert recommendations == general + bearing + belt + motor;
      if operatingHours > 500.0 && FloorMod(operatingHours, 500.0) < 1.0 {
        recommendations := recommendations + [ScheduleAdvice];
      }
      ghost var scheduled := When(ScheduleDue(operatingHours), ScheduleAdvice);
      assert recommendations == general + bearing + belt + motor + scheduled;
    }

    /** Physics, calibration, noise and bounds, one pass each over the
        channels. */
    method SettleReadings(raw: seq<real>, noise: seq<real>)
      requires Configured(sensors) && |raw| == ChannelCount && |noise| == ChannelCount
      modifies this`sensors
      ensures sensors == Settle(old(sensors), raw, noise)
      ensures SameConfig(sensors, old(sensors)) && Configured(sensors) && InBounds(sensors)
    {
      ghost var before := sensors;
      WriteRawValues(raw);
      ApplyCalibration();
      AddNoise(noise);
      EnforceBounds();
      SettleBounded(before, raw, noise);
      assert sensors == Settle(before, raw, noise);
    }

    /** The reading half of a tick: the reading is counted, the readings are
        settled, then one history sample is stored per channel. */
    method Sense(raw: seq<real>, noise: seq<real>, now: real)
      requires Valid() && |raw| == ChannelCount && |noise| == ChannelCount
      modifies this`sensors, this`history, this`readingCount
      ensures Valid()
      ensures readingCount == old(readingCount) + 1
      ensures sensors == Settle(old(sensors), raw, noise)
      ensures forall i :: 0 <= i < ChannelCount ==>
        history[i] == Push(old(history)[i], Sample(now, sensors[i].value), MaxHistoryPoints)
    {
      hide Settle, Push, Spaced, InBounds, TrendsBounded;
      readingCount := readingCount + 1;
      SettleReadings(raw, noise);
      StoreHistory(now);
    }

    /** The assessment half of a tick: metrics, health score and failure
        predictions from the settled readings. */
    method Assess()
      requires Valid()
      modifies this`metrics, this`healthScore, this`indicators, this`remainingUsefulLife
      ensures Valid()
      ensures metrics == Measure(sensors[Speed].value, sensors[Load].value, sensors[Current].value, alarms)
      ensures healthScore == HealthScore(sensors, operatingHours, alarms)
      ensures indicators == Predict(old(indicators), sensors[Vibration].value, trendData[Vibration].slope,
                                    sensors[Speed].value, operatingHours,
                                    sensors[Current].value, trendData[Current].slope)
      ensures remainingUsefulLife == 0.0
    {
      hide Measure, HealthScore, Predict, Spaced, InBounds, TrendsBounded;
      CalculatePerformanceMetrics();
      UpdateHealthScore();
      UpdateFailurePredictions();
    }

    /** The reacting half of a tick: trends once the speed history holds more
        than ten samples, then alarms, then recommendations. */
    method Review(now: real) returns (newAlarms: seq<Alarm>)
      requires Valid()
      modifies this`trendData, this`alarms, this`lastAlarmTime, this`recommendations
      ensures Valid()
      ensures trendData == if |history[Speed]| > 10 then Analyzed(old(trendData), history)
                           else old(trendData)
      ensures var r := Check(old(alarms), old(lastAlarmTime), sensors, trendData, now);
        alarms == r.log && lastAlarmTime == r.cooldowns && newAlarms == r.raised
      ensures recommendations == Recommendations(healthScore, indicators, operatingHours)
    {
      hide Analyzed, Check, Recommendations, Spaced, InBounds, TrendsBounded;
      if |history[Speed]| > 10 {
        PerformTrendAnalysis();
        AnalyzedBounded(old(trendData), history);
      }
      CheckSpaced(alarms, lastAlarmTime, sensors, trendData, now);
      newAlarms := CheckComprehensiveAlarms(now);
      GenerateMaintenanceRecommendations();
    }

    /** One `update_sensors` tick. The physics results (`raw`), the noise
        samples and the clock reading `now` are inputs; the alarms raised
        by the tick are returned for the transmission step. */
    method UpdateSensors(raw: seq<real>, noise: seq<real>, operatingTime: real, now: real)
      returns (newAlarms: seq<Alarm>)
      requires Valid() && |raw| == ChannelCount && |noise| == ChannelCount
      modifies this
      ensures Valid()
      ensures operatingHours == operatingTime / 3600.0 && readingCount == old(readingCount) + 1
      ensures sensors == Settle(old(sensors), raw, noise)
      ensures forall i :: 0 <= i < ChannelCount ==>
        history[i] == Push(old(history)[i], Sample(now, sensors[i].value), MaxHistoryPoints)
      ensures metrics == Measure(sensors[Speed].value, sensors[Load].value, sensors[Current].value,
                                 old(alarms))
      ensures healthScore == HealthScore(sensors, operatingHours, old(alarms))
      ensures indicators == Predict(old(indicators), sensors[Vibration].value,
                                    old(trendData)[Vibration].slope, sensors[Speed].value,
                                    operatingHours, sensors[Current].value,
                                    old(trendData)[Current].slope)
      ensures remainingUsefulLife == 0.0
      ensures trendData == if |history[Speed]| > 10 then Analyzed(old(trendData), history)
                           else old(trendData)
      ensures var r := Check(old(alarms), old(lastAlarmTime), sensors, trendData, now);
        alarms == r.log && lastAlarmTime == r.cooldowns && newAlarms == r.raised
      ensures recommendations == Recommendations(healthScore, indicators, operatingHours)
    {
      // The phases' contracts carry the proof; their definitions are not needed here.
      hide *;
      operatingHours := operatingTime / 3600.0;
      Sense(raw, noise, now);
      Assess();
      newAlarms := Review(now);
    }

    /** `set_thresholds`: an unknown name changes nothing; otherwise only the
        thresholds passed are replaced. */
    method SetThresholds(name: string, alarmThreshold: Option<real>, criticalThreshold: Option<real>)
      requires Valid()
      modifies this`sensors
      ensures Valid()
      ensures IndexOf(old(sensors), name).None? ==> sensors == old(sensors)
      ensures IndexOf(old(sensors), name).Some? ==>
        var i := IndexOf(old(sensors), name).value;
        sensors == old(sensors)[i := WithThresholds(old(sensors)[i], alarmThreshold, criticalThreshold)]
    {
      match IndexOf(sensors, name)
      case None =>
      case Some(i) =>
        var c := sensors[i];
        if alarmThreshold.Some? {
          c := c.(alarmThreshold := alarmThreshold.value);
        }
        if criticalThreshold.Some? {
          c := c.(criticalThreshold := criticalThreshold.value);
        }
        RetunedKeepsConfig(sensors, i, c);
        sensors := sensors[i := c];
    }

    /** `calibrate_sensor`: sets exactly the calibration factor of the named
        channel. */
    method CalibrateSensor(name: string, factor: real)
      requires Valid()
      modifies this`sensors
      ensures Valid()
      ensures IndexOf(old(sensors), name).None? ==> sensors == old(sensors)
      ensures IndexOf(old(sensors), name).Some? ==>
        var i := IndexOf(old(sensors), name).value;
        sensors == old(sensors)[i := old(sensors)[i].(calibrationFactor := factor)]
    {
      match IndexOf(sensors, name)
      case None =>
      case Some(i) =>
        RetunedKeepsConfig(sensors, i, sensors[i].(calibrationFactor := factor));
        sensors := sensors[i := sensors[i].(calibrationFactor := factor)];
    }

    /** `reset_alarms`: empties the log and the cooldown map. */
    method ResetAlarms()
      requires Valid()
      modifies this`alarms, this`lastAlarmTime
      ensures Valid() && alarms == [] && lastAlarmTime == map[]
    {
      alarms := [];
      lastAlarmTime := map[];
    }
  }

  /** Refitting keeps every coefficient of determination in `[0, 1]`. */
  lemma AnalyzedBounded(ts: seq<Trend>, hs: seq<seq<Sample>>)
    requires |hs| == |ts| && TrendsBounded(ts)
    ensures TrendsBounded(Analyzed(ts, hs))
  {
  }
}
