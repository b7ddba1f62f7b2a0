# Sensor monitoring of the material-handling demos, in Dafny

The repository simulates a bucket elevator and a conveyor belt. It monitors each one with
a set of sensor channels. This project models the bookkeeping and decision logic behind
those channels and proves what it promises. It covers three sensor-system variants.

- **The enhanced sensor system** (`enhanced_sensor_system.py`, class `EnhancedSensorSystem`)
  keeps five channels: speed, load, temperature, vibration and current. On every tick it:
  - runs the readings through a fixed pipeline: physics, calibration, noise, then the
    bounds clamp;
  - appends each reading to a bounded per-channel history;
  - computes performance metrics, the health score and the failure indicators;
  - fits a least-squares trend per channel;
  - raises threshold and trend alarms under cooldown keys into a capped log;
  - rebuilds the maintenance recommendations;
  - derives the machine status it transmits.

  Configuration calls retune a channel's thresholds or its calibration factor, or clear
  the alarms.
- **The simple bucket elevator** (`main9.py`) has `SensorSystem`, `PredictiveMaintenance`
  and `ControlSystem`, plus the belt path `get_belt_position`.
  In the running program, `SmartBucketElevator` builds an `EnhancedSensorSystem`, not a
  `main9.SensorSystem`, which is never instantiated (main9.py lines 14 and 376). It hands
  that system to `analyze_trends` and `update_control` (lines 772 and 775). Both read only
  the channel values. The enhanced channels have the same names, units, ranges and alarm
  thresholds as `main9.SensorSystem`'s (enhanced_sensor_system.py lines 29-56, main9.py
  lines 216-220), and their values are clamped to those ranges. So the contracts of
  `Elevator.PredictiveMaintenance.AnalyzeTrends` and `Elevator.ControlSystem.UpdateControl`,
  stated over the elevator's gauges, describe what the running program does with the
  enhanced readings.
- **The simple conveyor** (`convy.py`; `main_conv.py` has the same logic) has the same
  three classes with six channels and a load-driven target speed.

Modules:

| module | what it holds |
|---|---|
| `Common` | Python's `max(lo, min(hi, v))`, `int()` and float `%`. Severities. The history buffer that drops its oldest entry past a capacity. |
| `SensorModel` | The enhanced channel record, its initial configuration and the display readings. The dict lookup and the threshold update. |
| `Regression` | The trend fit. Windows of fewer than two points are rejected, and an exact line is recovered exactly. |
| `Health` | The health score and the failure indicators. Remaining useful life, performance metrics, recommendations and machine status. |
| `AlarmEngine` | The alarm check as a function over the channels, trends and cooldown map. Its spacing invariant. Its characterisation as a filter. |
| `EnhancedSystem` | The class `EnhancedSensorSystem`. Each step is a method whose loop is proved against the functions above. |
| `BasicSensors` | What the elevator and conveyor share: gauges, clamping, history, alarms, degradation terms and score-driven advice. |
| `Elevator`, `Conveyor` | The classes of `main9.py` and `convy.py`, and the elevator's belt path. |

How the model is built:
- Python floats are `real` and the sensors dict is a sequence in the dict's insertion
  order.
- Class state that the source updates in place is a Dafny `class` with `modifies` frames.
  Each method's loop is proved against a specification function.
- Lemmas prove what the code promises: the bounds invariant, FIFO history and cooldown
  spacing. Also the score ranges, the recommendation order and contents, and the control
  decisions by load.

Proved consequence of the enhanced system's code:
- `lubrication_quality` starts at 1 and no step lowers it.
- So the worst failure indicator is always at least 1.
- So the remaining useful life is 0 after every prediction step
  (`Health.LifeAlwaysExhausted`, used by `EnhancedSensorSystem.UpdateSensors`).

## Model

| member | source | states |
|---|---|---|
| Common.Clamp | main9.py:254-256 | With `lo <= hi` the result lies in `[lo, hi]`. A value already in range is kept. A value below becomes `lo`, one above becomes `hi`. |
| Common.Truncate | enhanced_sensor_system.py:558 | `int()` on a float truncates toward zero. For `x >= 0` the result is the integer just at or below `x`; for `x < 0`, the one just at or above. |
| Common.FloorMod | main9.py:588 | Python's `progress % 1.0` with a positive modulus lies in `[0, m)`. It is the identity on `[0, m)`. |
| Common.FloorModShift | main9.py:588 | Adding one modulus to the argument leaves the remainder unchanged. |
| Common.Newest | enhanced_sensor_system.py:498-500 | For `n > 0` (every size used: 10, 20, 100, 1000), the slice `[-n:]` is a suffix of the sequence. Its length is `n`, or the whole length when the sequence is shorter. Python's `[-0:]` would keep everything; no caller trims to 0. |
| Common.Push | main9.py:259-267 | One history update appends the sample. At capacity it also drops the oldest entry. A buffer within capacity stays within it and holds the newest `cap` samples. |
| Common.PushAllKeepsNewest | enhanced_sensor_system.py:314-326 | After any number of updates, a buffer that started within capacity holds exactly the newest `cap` samples of everything appended, in order. |
| Common.NewestOfNewest | enhanced_sensor_system.py:498-500 | Trimming the log to the newest entries before appending more does not change what the next trim keeps. |
| SensorModel.InitialChannels | enhanced_sensor_system.py:30-56 | There are five channels under their fixed names and in dict order. Each has a non-empty range that holds its initial value, and positive optimal bounds. |
| SensorModel.RetunedKeepsConfig | enhanced_sensor_system.py:715-732 | A channel whose name, value, bounds and optimal range are unchanged keeps the configuration and bounds invariants. |
| SensorModel.Values | enhanced_sensor_system.py:421 | The values of a history window, sample by sample. |
| SensorModel.ReadingOf | enhanced_sensor_system.py:641-652 | The status is `CRITICAL` exactly above the critical threshold. It is `ALARM` exactly above the alarm threshold but not above the critical one, and `NORMAL` otherwise. Name, value and unit are copied. |
| SensorModel.Readings | enhanced_sensor_system.py:641-652 | There is one display reading per channel, in channel order. |
| SensorModel.IndexOf | enhanced_sensor_system.py:717 | The lookup finds the first channel with the name. It returns `None` exactly when no channel has that name. |
| SensorModel.WithThresholds | enhanced_sensor_system.py:725-729 | Each threshold passed replaces the old one and an omitted one is kept. Nothing else of the channel changes. |
| Regression.Fit | enhanced_sensor_system.py:419-445 | A window fits exactly when it has at least two points, which is when the denominator is non-zero. Any fit has `r_squared` in `[0, 1]`. |
| Regression.Refit | enhanced_sensor_system.py:413-445 | With fewer than 10 readings the previous trend is kept. Otherwise the result is the fit of the newest 20 readings. A bounded `r_squared` stays bounded. |
| Regression.Slope | enhanced_sensor_system.py:426-428 | `(n*sum_xy - sum_x*sum_y) / denominator` over the window. `SlopeOnLine` and `NormalEquations` state what it computes: the exact slope of a line, and in general the least-squares slope. |
| Regression.Intercept | enhanced_sensor_system.py:435 | `(sum_y - slope*sum_x) / n`. `InterceptOnLine` and `NormalEquations` state what it computes: the exact intercept of a line, and in general the least-squares intercept. |
| Regression.RawRSquared | enhanced_sensor_system.py:430-440 | `1 - ss_res/ss_tot`, or 0 when the window has no variance, before the clamp. `RSquaredOnLine` gives its value on exact lines, and `Fit` clamps it to `[0, 1]`. |
| Regression.DenominatorSign | enhanced_sensor_system.py:426-427 | `n * sum_xx - sum_x^2` is zero exactly for `n < 2` and positive otherwise. |
| Regression.DenominatorClosedForm | enhanced_sensor_system.py:420-426 | `12 * (n * sum_xx - sum_x^2) == n^2 (n - 1)(n + 1)`. |
| Regression.SlopeOnLine | enhanced_sensor_system.py:428 | On readings `a + b*i` the slope formula returns exactly `b`. |
| Regression.InterceptOnLine | enhanced_sensor_system.py:435 | On readings `a + b*i` the intercept formula returns exactly `a`. |
| Regression.SumResClosedForm | enhanced_sensor_system.py:420-421 | The sum of the residuals about any line `slope * i + intercept` is `sum_y - slope * sum_x - n * intercept`. |
| Regression.SumXResClosedForm | enhanced_sensor_system.py:420-423 | The index-weighted sum of the residuals about any line is `sum_xy - slope * sum_xx - intercept * sum_x`. |
| Regression.NormalAlgebra | enhanced_sensor_system.py:426-435 | With a non-zero denominator, the slope and intercept formulas solve both normal equations in terms of the four sums. |
| Regression.NormalEquations | enhanced_sensor_system.py:426-437 | For any window of two or more readings, the fitted slope and intercept are the least-squares line: the residuals sum to zero, and so do the residuals weighted by reading index. |
| Regression.RSquaredOnLine | enhanced_sensor_system.py:431-440 | On an exact line the coefficient of determination is 1. A flat line has zero variance, so it gets 0. |
| Regression.ExactLineFit | enhanced_sensor_system.py:419-445 | The fit of an exact line is its slope, with `r_squared` 1 (or 0 when flat). |
| Regression.ConstantWindowIsNeutral | enhanced_sensor_system.py:434-440 | A window without variance yields the neutral trend (slope 0, `r_squared` 0). |
| Health.Deviation | enhanced_sensor_system.py:362-367 | The relative distance outside the optimal range is non-negative. It is zero exactly inside the range. |
| Health.ChannelPenalty | enhanced_sensor_system.py:359-369 | One channel costs between 0 and 10 points. It costs 0 exactly when its value is inside the optimal range. |
| Health.TotalPenalty | enhanced_sensor_system.py:357-369 | The summed channel penalties lie in `[0, 10 * channels]`. They are zero exactly when every channel is optimal. |
| Health.PenaltyStep | enhanced_sensor_system.py:357-369 | Each iteration of the channel loop adds that channel's own penalty to the running sum. |
| Health.AgePenalty | enhanced_sensor_system.py:372-373 | The age deduction is at most 1.5 points. It is zero exactly at zero hours. |
| Health.SevereCount | enhanced_sensor_system.py:376 | Counts the `HIGH` and `CRITICAL` alarms. It is zero exactly when there are none. |
| Health.AlarmPenalty | enhanced_sensor_system.py:376-377 | The alarm deduction is in `[0, 20]`. It is zero exactly when none of the newest 20 alarms is severe. |
| Health.HealthScore | enhanced_sensor_system.py:352-382 | The score always lies in `[0, 100]`. |
| Health.HealthFloor | enhanced_sensor_system.py:352-382 | With five channels the score never falls below 28.5 (100 - 50 - 1.5 - 20). |
| Health.PerfectHealth | enhanced_sensor_system.py:352-382 | The score is exactly 100 if and only if every channel is optimal, no hours have run and no recent alarm is severe. |
| Health.BearingWear | enhanced_sensor_system.py:388-390 | Bearing wear is at most 1. It is non-negative for a non-falling trend, and not positive with low vibration and no upward trend. |
| Health.BeltDegradation | enhanced_sensor_system.py:393-395 | Belt degradation is at most 1, and non-negative for non-negative hours. |
| Health.MotorEfficiency | enhanced_sensor_system.py:398-401 | Motor efficiency is non-negative, and at most 1 for a non-falling current trend. |
| Health.Worst | enhanced_sensor_system.py:404 | The result is the largest of the four indicators. |
| Health.RemainingLife | enhanced_sensor_system.py:404-405 | Remaining life is non-negative. It is zero exactly when the worst indicator reaches 1, and at least 100 when no indicator is positive. |
| Health.Predict | enhanced_sensor_system.py:384-405 | One prediction step sets the three computed indicators and leaves the lubrication quality as it was. |
| Health.LifeAlwaysExhausted | enhanced_sensor_system.py:384-405 | Lubrication quality starts at 1 and is never lowered, so every prediction step yields zero remaining life. |
| Health.Power | enhanced_sensor_system.py:333 | Power drawn is non-negative for a non-negative current. |
| Health.EfficiencyRange | enhanced_sensor_system.py:331-334 | Efficiency lies in `(0, 1]`. It is 1 up to 30 kW and `30 / power` above. |
| Health.CriticalCount | enhanced_sensor_system.py:337 | Counts the `CRITICAL` alarms. It is zero exactly when there are none. |
| Health.Uptime | enhanced_sensor_system.py:336-339 | Uptime lies in `[0.5, 1]`. It is 1 exactly when none of the newest 10 alarms is critical. |
| Health.ThroughputRange | enhanced_sensor_system.py:341-344 | Throughput lies between 0 and `speed / 60 * 0.95` for non-negative readings, and reaches that bound from 600 kg load upwards. |
| Health.Efficiency | enhanced_sensor_system.py:331-334 | `min(1, 30 / max(current*0.4, 1))`. Its range is stated by `EfficiencyRange`. |
| Health.Throughput | enhanced_sensor_system.py:341-344 | `speed/60 * min(1, load/600) * 0.95`. Its range is stated by `ThroughputRange`. |
| Health.Measure | enhanced_sensor_system.py:328-346 | The four metrics (efficiency, uptime, throughput, power) from the current readings and the alarm log. `CalculatePerformanceMetrics` writes exactly this record. |
| Health.InspectionDays | enhanced_sensor_system.py:558 | The lead time is at least one day. From health 65 on, it is the whole number of 5-point steps above 60. |
| Health.GeneralInspectionFor | enhanced_sensor_system.py:553-559 | The general inspection has `Medium` priority above 70 health and `High` otherwise, at least one day out. |
| Health.When | enhanced_sensor_system.py:553-594 | A conditional append contributes the entry exactly when its condition holds. |
| Health.ScheduleDue | enhanced_sensor_system.py:587 | More than 500 hours and less than one hour past a multiple of 500. `ScheduleDueWindow` spells this out window by window. |
| Health.ScheduleDueWindow | enhanced_sensor_system.py:587 | Within the `k`-th 500-hour window, maintenance is due exactly in the window's first hour, and never at or below 500 hours. |
| Health.Recommendations | enhanced_sensor_system.py:547-596 | The rebuilt list has at most five entries. |
| Health.RecommendationKinds | enhanced_sensor_system.py:547-596 | Each kind is listed exactly when its condition holds: health < 85, bearing > 0.7, belt > 0.6, motor < 0.8, the 500-hour mark. They appear in that order, and the list is rebuilt, not accumulated. |
| Health.RecommendationContents | enhanced_sensor_system.py:553-594 | Every entry carries the fixed priority and lead time of its kind. |
| Health.MachineStatus | enhanced_sensor_system.py:624-629 | The status is `Maintenance` exactly below 70 health. It is `Error` exactly otherwise when a new alarm is critical, and `Running` in the remaining case. |
| AlarmEngine.Classify | enhanced_sensor_system.py:460-467 | Returns `CRITICAL` exactly above the critical threshold, and `HIGH` exactly above the alarm threshold but not the critical one. Otherwise no alarm, and never `MEDIUM`. |
| AlarmEngine.PriorityOf | enhanced_sensor_system.py:462-465 | Priority is 1 for `CRITICAL`, 2 for `HIGH` and 3 otherwise. |
| AlarmEngine.ThresholdAlarm | enhanced_sensor_system.py:477-490 | The record carries the time, channel, value, severity and its priority. Its threshold is the critical one for `CRITICAL` and the alarm threshold otherwise. It is filed under the `(channel, severity)` key. |
| AlarmEngine.TrendAlarm | enhanced_sensor_system.py:527-540 | A trend alarm is `MEDIUM` with priority 3 and the alarm threshold, filed under the channel's trend key. |
| AlarmEngine.KeyOf | enhanced_sensor_system.py:470 | `<sensor>_<severity>` for a threshold alarm, and `<sensor>_trend` (line 523) for a trend alarm. `CheckStamps` and `CheckSpaced` state how these keys are stamped and spaced. |
| AlarmEngine.Suppressed | enhanced_sensor_system.py:470-474 | A threshold key is cooling down when it was stamped less than 30 s ago. `DirectPassIsFilter`, `CheckSingleHeld` and `ThresholdRearms` state its effect. |
| AlarmEngine.TrendReady | enhanced_sensor_system.py:523-525 | A trend key may fire when it is unknown or more than 300 s old. `TrendPassIsFilter` states its effect. |
| AlarmEngine.TrendWarns | enhanced_sensor_system.py:514-522 | `r_squared > 0.7`, a positive slope, and the value 10 readings ahead past the alarm threshold. `TrendPassIsFilter` states its effect. |
| AlarmEngine.DirectPass | enhanced_sensor_system.py:456-490 | The threshold loop raises at most one alarm per channel. It only appends to what was raised before. |
| AlarmEngine.TrendPass | enhanced_sensor_system.py:513-540 | The trend loop raises at most one alarm per channel. It only appends to what was raised before. |
| AlarmEngine.DirectPassStep | enhanced_sensor_system.py:456-490 | Extending the threshold loop by one channel is one more loop iteration. |
| AlarmEngine.TrendPassStep | enhanced_sensor_system.py:513-540 | Extending the trend loop by one channel is one more loop iteration. |
| AlarmEngine.TrendPassShift | enhanced_sensor_system.py:495-496 | The trend loop's result does not depend on the alarms raised before it. |
| AlarmEngine.Check | enhanced_sensor_system.py:450-505 | The log after a check is the newest 100 of the old log plus the raised alarms. At most two alarms are raised per channel. Its cooldown map is stated by `CheckStamps`. |
| AlarmEngine.CheckAssembled | enhanced_sensor_system.py:450-505 | A check runs the threshold loop, then the trend loop on the cooldowns the first loop left, then trims. |
| AlarmEngine.AppendSpaced | enhanced_sensor_system.py:469-474 | Logging an alarm whose key is not cooling down keeps every key's alarms spaced by its cooldown. |
| AlarmEngine.DirectPassSpaced | enhanced_sensor_system.py:456-490 | The threshold loop keeps the cooldown spacing of the log. |
| AlarmEngine.TrendPassSpaced | enhanced_sensor_system.py:513-540 | The trend loop keeps the cooldown spacing of the log. |
| AlarmEngine.NewestSpaced | enhanced_sensor_system.py:498-500 | Trimming the log keeps the cooldown spacing. |
| AlarmEngine.CheckSpaced | enhanced_sensor_system.py:450-505 | After a whole check, no two logged alarms under one key are closer than that key's cooldown: 30 s for threshold keys, more than 300 s for trend keys. |
| AlarmEngine.DirectPassWrites | enhanced_sensor_system.py:490 | The threshold loop writes only the threshold keys of its own channels. |
| AlarmEngine.TrendPassWrites | enhanced_sensor_system.py:540 | The trend loop writes only the trend keys of its own channels. |
| AlarmEngine.DirectPassIsFilter | enhanced_sensor_system.py:456-490 | With distinct names, the threshold loop raises exactly the channels above a threshold whose key is not cooling down, in channel order. |
| AlarmEngine.TrendPassIsFilter | enhanced_sensor_system.py:513-540 | With distinct names, the trend loop raises exactly the channels with a strong rising trend projected past the threshold whose trend key is ready, in channel order. |
| AlarmEngine.CheckIsFilter | enhanced_sensor_system.py:450-505 | One check raises exactly the threshold alarms, then the trend alarms, as decided by the cooldown map at its start. |
| AlarmEngine.StampStep | enhanced_sensor_system.py:490 | Raising one more alarm stamps its key with `now` and leaves every other key as it was. |
| AlarmEngine.StampCompose | enhanced_sensor_system.py:495 | The threshold loop's stamping followed by the trend loop's is one stamping by all the raised alarms. |
| AlarmEngine.DirectPassStamps | enhanced_sensor_system.py:456-490 | After the threshold loop, the key of each alarm it raised holds `now`; every other key is unchanged. |
| AlarmEngine.TrendPassStamps | enhanced_sensor_system.py:513-540 | After the trend loop, the `<sensor>_trend` key of each trend alarm it raised holds `now`; every other key is unchanged. |
| AlarmEngine.CheckStamps | enhanced_sensor_system.py:470-490 | After a check, the cooldown map holds `now` under the key of every raised alarm and is unchanged under every other key. |
| AlarmEngine.DirectFilterHas | enhanced_sensor_system.py:460-488 | A channel past a threshold whose key is not cooling down is in the threshold loop's output. |
| AlarmEngine.ThresholdRearms | enhanced_sensor_system.py:470-474 | With distinct channel names, a channel past a threshold raises its alarm again once its key is unknown or at least 30 s old. |
| AlarmEngine.CheckSingle | enhanced_sensor_system.py:456-495 | A check of one channel with no trend raises what one step of the threshold loop raises and writes the same cooldown map. |
| AlarmEngine.CheckSingleRaises | enhanced_sensor_system.py:460-490 | A single channel past a threshold whose key is not cooling down raises its one alarm and stamps that key with `now`. |
| AlarmEngine.CheckSingleHeld | enhanced_sensor_system.py:470-474 | A single channel past a threshold whose key is cooling down raises nothing and leaves the cooldown map unchanged. |
| AlarmEngine.CooldownScenario | enhanced_sensor_system.py:460-490 | Thresholds 90 and 95, each check starting from the map the previous one left: 92 at 0 s raises `HIGH`; 96 at 5 s raises `CRITICAL` under its own key; 93 at 10 s raises nothing; 93 at 30 s raises `HIGH` again and restamps its key. |
| EnhancedSystem.ThermalLag | enhanced_sensor_system.py:217-220 | The temperature closes a tenth of the gap to its target. It stays between the old value and the target. |
| EnhancedSystem.Raw | enhanced_sensor_system.py:129-134 | The physics step replaces only the value. The temperature goes through the thermal lag and every other channel takes its computed reading. |
| EnhancedSystem.Calibrated | enhanced_sensor_system.py:279-291 | Calibration scales the value by its factor and changes nothing else. Vibration is also raised to at least 0. |
| EnhancedSystem.Bounded | enhanced_sensor_system.py:308-312 | The bounds step keeps the channel's setup. It puts a value in range, keeping one that was in range and moving one outside to the nearer bound. |
| EnhancedSystem.Settle | enhanced_sensor_system.py:129-141 | Settling keeps the number of channels. |
| EnhancedSystem.SettleBounded | enhanced_sensor_system.py:308-312 | After physics, calibration, noise and bounds, only values have changed and every value is within its channel's bounds. |
| EnhancedSystem.Analyzed | enhanced_sensor_system.py:410-448 | There is one trend per channel. |
| EnhancedSystem.AnalyzedBounded | enhanced_sensor_system.py:444 | Trend analysis keeps every `r_squared` in `[0, 1]`. |
| EnhancedSystem.EnhancedSensorSystem.constructor | enhanced_sensor_system.py:25-105 | The initial state: configured channels, empty histories and alarms, and health 100. Remaining life 85, neutral trends and the initial indicators. |
| EnhancedSystem.EnhancedSensorSystem.WriteRawValues | enhanced_sensor_system.py:129-134 | Each channel gets its physics reading, with temperature through the thermal lag. |
| EnhancedSystem.EnhancedSensorSystem.ApplyCalibration | enhanced_sensor_system.py:279-291 | Every channel is calibrated in place. |
| EnhancedSystem.EnhancedSensorSystem.AddNoise | enhanced_sensor_system.py:293-306 | Each channel's noise sample is added to its value. |
| EnhancedSystem.EnhancedSensorSystem.EnforceBounds | enhanced_sensor_system.py:308-312 | Every channel is clamped to its bounds in place. |
| EnhancedSystem.EnhancedSensorSystem.SettleReadings | enhanced_sensor_system.py:129-141 | The four reading steps give `Settle` of the old channels. Only values change, and all are in bounds. |
| EnhancedSystem.EnhancedSensorSystem.StoreHistory | enhanced_sensor_system.py:314-326 | One sample per channel is stamped `now`, oldest dropped past 1000. |
| EnhancedSystem.EnhancedSensorSystem.CalculatePerformanceMetrics | enhanced_sensor_system.py:328-350 | Metrics are power, efficiency, uptime and throughput of the current readings. |
| EnhancedSystem.EnhancedSensorSystem.UpdateHealthScore | enhanced_sensor_system.py:352-382 | The channel-penalty loop computes `HealthScore`. |
| EnhancedSystem.EnhancedSensorSystem.UpdateFailurePredictions | enhanced_sensor_system.py:384-408 | Sets the indicators from vibration, speed, hours, current and the trends. Remaining life comes from the worst indicator and is zero while lubrication quality is 1. |
| EnhancedSystem.EnhancedSensorSystem.PerformTrendAnalysis | enhanced_sensor_system.py:410-448 | The per-channel loop computes `Analyzed` of the histories. |
| EnhancedSystem.EnhancedSensorSystem.CheckThresholdAlarms | enhanced_sensor_system.py:456-490 | The threshold loop raises `DirectPass`, appends it to the log and records the cooldowns. |
| EnhancedSystem.EnhancedSensorSystem.CheckTrendAlarms | enhanced_sensor_system.py:507-545 | The trend loop raises `TrendPass`, appends it to the log and records the cooldowns. |
| EnhancedSystem.EnhancedSensorSystem.CheckComprehensiveAlarms | enhanced_sensor_system.py:450-505 | Returns the raised alarms. The log and cooldowns become `Check` of the old ones. |
| EnhancedSystem.EnhancedSensorSystem.GenerateMaintenanceRecommendations | enhanced_sensor_system.py:547-596 | The list is cleared and rebuilt as `Recommendations` of health, indicators and hours. |
| EnhancedSystem.EnhancedSensorSystem.Sense | enhanced_sensor_system.py:127-144 | Counts the reading, settles the channels in bounds and records one sample per channel. |
| EnhancedSystem.EnhancedSensorSystem.Assess | enhanced_sensor_system.py:146-151 | Metrics, health score and predictions are those of the settled readings. Remaining life is 0. |
| EnhancedSystem.EnhancedSensorSystem.Review | enhanced_sensor_system.py:153-161 | Refits trends once the speed history has more than 10 samples. Runs the alarm check and rebuilds the recommendations. |
| EnhancedSystem.EnhancedSensorSystem.UpdateSensors | enhanced_sensor_system.py:123-167 | One whole tick: every field's new value in terms of the old state. The invariant holds: channels configured and in bounds, histories capped, `r_squared` in `[0, 1]`. |
| EnhancedSystem.EnhancedSensorSystem.SetThresholds | enhanced_sensor_system.py:723-732 | An unknown name changes nothing. Otherwise only that channel's given thresholds change, and reading them back returns the values set. |
| EnhancedSystem.EnhancedSensorSystem.CalibrateSensor | enhanced_sensor_system.py:715-721 | An unknown name changes nothing. Otherwise exactly that channel's calibration factor is set. |
| EnhancedSystem.EnhancedSensorSystem.ResetAlarms | enhanced_sensor_system.py:709-713 | The alarm log and the cooldown map are emptied. |
| BasicSensors.WithValues | main9.py:229-251 | Writing the computed readings changes only the values. |
| BasicSensors.ClampedAll | main9.py:254-256 | Every channel is clamped to its own range. |
| BasicSensors.ClampSettles | main9.py:254-256 | Clamping keeps the setup, brings every value into range and leaves an in-range value alone. |
| BasicSensors.Recorded | main9.py:259-267 | Each channel's history gains the sample and keeps its newest 100 entries. |
| BasicSensors.NoticeOf | main9.py:277-283 | The alarm is `HIGH` exactly more than 10% past the threshold and `MEDIUM` otherwise. It carries time, channel, value and threshold. |
| BasicSensors.Triggered | main9.py:272-286 | At most one alarm per channel. |
| BasicSensors.TriggeredStep | main9.py:275-284 | One more channel of the alarm loop appends its alarm, if any. |
| BasicSensors.TriggeredExactly | main9.py:272-286 | An alarm is logged if and only if it is the alarm of a channel strictly above its threshold. |
| BasicSensors.TriggeredOnce | main9.py:272-286 | With distinct channel names, no channel is logged twice in one check. |
| BasicSensors.Excess | main9.py:301-313 | A degradation term is non-negative. It is positive exactly when the ratio to the limit passes the knee. |
| BasicSensors.Decayed | main9.py:316 | The score never goes negative and never rises. When positive, it fell by exactly 1% of the degradation. |
| BasicSensors.AdviceSelects | main9.py:321-330 | The i-th message is given exactly when the score is below the i-th limit (90, 80, 70, 60, 50). |
| BasicSensors.Advice | main9.py:319-330 | The rebuilt list is a prefix of the messages, containing exactly those whose limit the score is below. |
| BasicSensors.AdviceGrowsAsScoreFalls | main9.py:319-330 | A lower score's list extends a higher score's list. |
| Elevator.Gauges | main9.py:214-221 | There are five channels with distinct names, non-empty ranges and in-range initial values. |
| Elevator.Raw | main9.py:229-251 | Returns one computed reading per channel. |
| Elevator.Reading | main9.py:225-256 | After the update every value is its computed reading clamped to its range. The setup is unchanged. |
| Elevator.SensorSystem.constructor | main9.py:214-223 | The initial gauges, with empty histories and alarm list. |
| Elevator.SensorSystem.UpdateSensors | main9.py:225-270 | The new channels are `Reading` and the histories `Recorded`. The alarms are the old ones plus `Triggered` of the new readings, and the invariant is kept. |
| Elevator.SensorSystem.ClampAll | main9.py:254-256 | The clamp loop computes `ClampedAll`. |
| Elevator.SensorSystem.StoreHistory | main9.py:259-267 | The history loop computes `Recorded`. |
| Elevator.SensorSystem.CheckAlarms | main9.py:272-286 | The alarm loop appends `Triggered`. |
| Elevator.UpdateAlarms | main9.py:272-286 | Each over-threshold channel gets exactly one alarm. |
| Elevator.Degradation | main9.py:298-313 | Degradation is non-negative. It is zero exactly when temperature ≤ 56, vibration ≤ 10.5 and current ≤ 36. |
| Elevator.PredictiveMaintenance.constructor | main9.py:291-293 | Score 100, no recommendations. |
| Elevator.PredictiveMaintenance.AnalyzeTrends | main9.py:295-330 | The score decays by the degradation and never rises. The recommendations are the advice for the new score. |
| Elevator.PredictiveMaintenance.Recommend | main9.py:319-330 | The five conditional appends build `Advice` of the score. |
| Elevator.AdjustmentByLoad | main9.py:346-353 | The speed adjustment never rises with load. It is negative exactly above 720 kg, positive exactly below 240 kg, and one of -0.5, 0, 0.3. |
| Elevator.TripRaisesAlarm | main9.py:356-359 | Every reading that trips the emergency stop has also raised an alarm. |
| Elevator.Adjustment | main9.py:346-353 | The speed adjustment by load ratio. Its shape and monotonicity are stated by `AdjustmentByLoad`. |
| Elevator.Tripped | main9.py:356-358 | Temperature above 75, vibration above 18 or current above 48. `TripRaisesAlarm` and `ControlSystem.UpdateControl` state its meaning and effect. |
| Elevator.ControlSystem.constructor | main9.py:335-339 | Automatic mode, target 2.0 m/s, no adjustment, not stopped. |
| Elevator.ControlSystem.UpdateControl | main9.py:341-360 | The emergency stop latches and manual or stopped mode changes nothing. Otherwise the adjustment follows the load, and the stop is set exactly when temperature, vibration or current is critical. |
| Elevator.BeltInFrame | main9.py:586-607 | For every progress value the belt position lies within `x` in `[2, 8]` and `y` in `[2, height]`. |
| Elevator.BeltPosition | main9.py:586-607 | `get_belt_position`: four straight runs by quarter of `progress % 1`. `BeltInFrame`, `RunsJoin`, `CornersOnPath` and `BeltPeriodic` state its properties. |
| Elevator.RunsJoin | main9.py:590-605 | The four straight runs join end to end into a closed loop. |
| Elevator.CornersOnPath | main9.py:588-605 | The quarter marks are the corners of the path. |
| Elevator.ElevatorBeltInFrame | main9.py:384 | With `elevator_height = 20`, every belt position has `x` in `[2, 8]` and `y` in `[2, 20]`. |
| Elevator.ElevatorCorners | main9.py:586-607 | With `elevator_height = 20`, the quarter marks are (2, 2), (8, 2), (8, 20) and (2, 20). |
| Elevator.BeltPeriodic | main9.py:588 | Progress is taken modulo 1, so the position repeats every whole turn. |
| Conveyor.Gauges | main_conv.py:443-453 | There are six channels with distinct names, non-empty ranges and in-range initial values. |
| Conveyor.LoadPercent | convy.py:461-462 | Load lies in `[0, 100]`. It is twice the material count up to 50 units, and 100 exactly from 50 units on. |
| Conveyor.Raw | convy.py:455-485 | Returns one computed reading per channel. |
| Conveyor.Reading | convy.py:455-490 | Every value is its computed reading clamped to its range, and the load is exactly `LoadPercent`. |
| Conveyor.SensorSystem.constructor | convy.py:443-453 | The initial gauges, with empty histories and alarm list. |
| Conveyor.SensorSystem.UpdateSensors | convy.py:455-504 | The new channels are `Reading` and the histories `Recorded`. The alarms are the old ones plus `Triggered` (with units), and the invariant is kept. |
| Conveyor.SensorSystem.ClampAll | convy.py:488-490 | The clamp loop computes `ClampedAll`. |
| Conveyor.SensorSystem.StoreHistory | convy.py:494-501 | The history loop computes `Recorded`. |
| Conveyor.SensorSystem.CheckAlarms | convy.py:506-521 | The alarm loop appends `Triggered`, with units. |
| Conveyor.UpdateAlarms | convy.py:506-521 | Each over-threshold channel gets exactly one alarm, and each alarm carries its channel's unit. |
| Conveyor.Degradation | convy.py:533-553 | Degradation is non-negative. It is zero exactly when vibration ≤ 10.5, temperature ≤ 56, slippage ≤ 6.4 and current ≤ 36. |
| Conveyor.PredictiveMaintenance.constructor | convy.py:526-528 | Score 100, no recommendations. |
| Conveyor.PredictiveMaintenance.AnalyzeTrends | convy.py:530-570 | The score decays by the degradation and never rises. The recommendations are the advice for the new score. |
| Conveyor.PredictiveMaintenance.Recommend | main_conv.py:559-570 | The five conditional appends build `Advice` of the score. |
| Conveyor.TargetSpeedByLoad | convy.py:586-595 | The target speed never rises with load and lies within the limits (which never bite). It is one of 0.8, 1.5, 2.0: 0.8 exactly above 90% load, 2.0 exactly below 30%. |
| Conveyor.TripRaisesAlarm | convy.py:598-603 | Every reading that trips the emergency stop has also raised an alarm. |
| Conveyor.Chosen | convy.py:584-592 | 0.8, 2.0 or 1.5 by load ratio, before the limits. Its shape is stated by `TargetSpeedByLoad`. |
| Conveyor.TargetSpeed | convy.py:594-595 | The chosen speed clamped to `[0.5, 3.0]`. `TargetSpeedByLoad` states its range and monotonicity. |
| Conveyor.Tripped | convy.py:597-601 | Temperature above 75, vibration above 18, current above 48 or slippage above 9. `TripRaisesAlarm` and `ControlSystem.UpdateControl` state its meaning and effect. |
| Conveyor.ControlSystem.constructor | convy.py:575-578 | Automatic mode, target 1.5 m/s, not stopped. |
| Conveyor.ControlSystem.UpdateControl | convy.py:580-603 | The emergency stop latches and manual or stopped mode changes nothing. Otherwise the target follows the load, and the stop is set exactly when a channel is critical. |

## Left out

- Physics with trigonometry, random noise and the clock. The enhanced channel formulas
  (`_update_speed_sensor` … `_update_current_sensor`, lines 169-277) use `math.sin`,
  `random` and the current-spike test. Their results are parameters: `raw` for the
  computed readings and `noise` for the Gaussian samples. The temperature's thermal lag
  toward its target is modelled.
- The elevator's rpm conversion divides by `2 * math.pi * 0.6`. The rpm reading is
  therefore a parameter.
- The simple variants' `random.uniform` samples are parameters. The models do not restrict
  them to their intervals, so the proved properties hold for any noise.
- `datetime.now()` and `time.time()` become a `now` parameter. The enhanced tick reads the clock three times: for the history timestamp (line 316), in the threshold
  loop (line 453) and in the trend loop (line 510). The simple variants read it twice each
  (main9.py lines 259 and 274, main_conv.py lines 493 and 508). The model uses one `now`
  for every read within a tick.
- The wiring of main9.py's `SmartBucketElevator` is modelled only through the channel values
  the two classes share. The enhanced history keeps 1000 samples, while the elevator
  `SensorSystem` keeps 100. Neither `analyze_trends` nor `update_control` reads the history.
- Floats are modelled as exact reals. Rounding, NaN and infinity are not modelled.
- Logging, the `try`/`except` wrappers, `print_status` and the printed alarm lines are
  left out. Alarm `message` strings and recommendation `description` strings are left out
  because they are formatted floats.
- `_handle_data_transmission` is modelled only through the status it derives
  (`Health.MachineStatus`). The connector calls, the transmission interval and the offline
  branch are I/O.
- `load_sensor_config` is left out: it reads a configuration source outside this model.
  `get_health_summary` and `export_data` are left out: they only repackage the state or
  write a file.
- Everything else in the three simulation files is not part of this model: VPython
  scenes, recorders, threads, HMI displays, material flow and animation.
- `get_belt_position` returns a 3-D vector whose `z` is always 0. `Elevator.Point` keeps
  only `x` and `y`.
- The unit and message strings of `convy.py` are mis-encoded. The model uses the text of
  `main_conv.py`, whose lines 440-603 match `convy.py` line for line. So each `Conveyor` row
  cites one file and holds for both.
- The simple variants' `alarms` lists grow without bound, as in the source. Only the
  enhanced system trims its log.
- EnhancedSystem.EnhancedSensorSystem.UpdateSensors: the source increments
  `reading_count` before the physics. The model counts it in `Sense`, which runs at the
  same point of the tick. The alarms raised in the tick are returned rather than passed
  on to the transmission.
- Health.BearingWear: not clamped below 0. Health.MotorEfficiency: not clamped above 1.
  This follows the code, which clamps only one side of each. So the model does not claim
  that every indicator lies in `[0, 1]`.
- Health.AgePenalty: at most 1.5 points (`min(hours / 8760, 0.1) * 15`), as the code
  computes, although its comment speaks of 15 points.
- Health.Recommendations: the code has one health-driven entry (below 85, priority split
  at 70), not a ladder of health thresholds.
- Channel definitions are not validated for threshold ordering at construction, because
  the code does not validate them.
