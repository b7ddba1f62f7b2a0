/** The data the enhanced sensor system keeps per channel, the records it
    produces (history samples, alarms, readings) and the small value-level
    updates its configuration mutators perform (enhanced_sensor_system.py). */
module SensorModel {
  import opened Common

  /** One entry of the `sensors` dict: the current value and its fixed
      configuration; `optimalLow`/`optimalHigh` are `optimal_range`. */
  datatype Channel = Channel(
    name: string,
    unit: string,
    value: real,
    minValue: real,
    maxValue: real,
    alarmThreshold: real,
    criticalThreshold: real,
    optimalLow: real,
    optimalHigh: real,
    calibrationFactor: real)

  /** Positions of the channels, in the dict's insertion order. */
  const Speed: nat := 0
  const Load: nat := 1
  const Temperature: nat := 2
  const Vibration: nat := 3
  const Current: nat := 4
  const ChannelCount: nat := 5

  const ChannelNames: seq<string> :=
    ["speed_rpm", "load_kg", "temperature_c", "vibration_ms2", "current_a"]

  /** The configuration the system starts with. */
  function InitialChannels(): (r: seq<Channel>)
    ensures Configured(r) && InBounds(r)
  {
    [ Channel("speed_rpm", "rpm", 0.0, 0.0, 100.0, 90.0, 95.0, 40.0, 60.0, 1.0),
      Channel("load_kg", "kg", 0.0, 0.0, 1000.0, 900.0, 950.0, 400.0, 700.0, 1.0),
      Channel("temperature_c", "°C", 25.0, 20.0, 80.0, 70.0, 75.0, 25.0, 45.0, 1.0),
      Channel("vibration_ms2", "m/s²", 0.0, 0.0, 20.0, 15.0, 18.0, 2.0, 8.0, 1.0),
      Channel("current_a", "A", 0.0, 0.0, 50.0, 45.0, 48.0, 15.0, 35.0, 1.0) ]
  }

  /** The five channels, under their fixed names, with a non-empty value
      range and a positive optimal range (the health score divides by it). */
  ghost predicate Configured(cs: seq<Channel>)
  {
    |cs| == ChannelCount
    && (forall i :: 0 <= i < |cs| ==> cs[i].name == ChannelNames[i])
    && (forall i :: 0 <= i < |cs| ==> cs[i].minValue <= cs[i].maxValue)
    && PositiveOptima(cs)
  }

  predicate PositiveOptima(cs: seq<Channel>)
  {
    forall i :: 0 <= i < |cs| ==> cs[i].optimalLow > 0.0 && cs[i].optimalHigh > 0.0
  }

  ghost predicate InBounds(cs: seq<Channel>)
  {
    forall i :: 0 <= i < |cs| ==> cs[i].minValue <= cs[i].value <= cs[i].maxValue
  }

  /** Two channel lists that differ at most in the current values. */
  ghost predicate SameConfig(a: seq<Channel>, b: seq<Channel>)
  {
    |a| == |b| && forall i :: 0 <= i < |a| ==> a[i].(value := b[i].value) == b[i]
  }

  /** Replacing one channel by one with the same name, value, bounds and
      optimal range keeps the list configured and in bounds. */
  lemma RetunedKeepsConfig(cs: seq<Channel>, i: nat, c: Channel)
    requires Configured(cs) && InBounds(cs) && i < |cs|
    requires c.name == cs[i].name && c.value == cs[i].value
    requires c.minValue == cs[i].minValue && c.maxValue == cs[i].maxValue
    requires c.optimalLow == cs[i].optimalLow && c.optimalHigh == cs[i].optimalHigh
    ensures Configured(cs[i := c]) && InBounds(cs[i := c])
  {
  }

  /** One history entry. */
  datatype Sample = Sample(timestamp: real, value: real)

  function Values(h: seq<Sample>): (r: seq<real>)
    ensures |r| == |h| && forall i :: 0 <= i < |h| ==> r[i] == h[i].value
  {
    if h == [] then [] else Values(h[..|h| - 1]) + [h[|h| - 1].value]
  }

  /** One entry of the alarm log. `threshold` is the limit that fired. */
  datatype Alarm = Alarm(
    timestamp: real,
    sensor: string,
    severity: Severity,
    priority: nat,
    value: real,
    threshold: real)

  /** The display status `get_current_readings` gives each channel. */
  datatype ReadingStatus = NormalReading | AlarmReading | CriticalReading

  datatype Reading = Reading(name: string, value: real, unit: string, status: ReadingStatus)

  /** `CRITICAL` above the critical threshold, otherwise `ALARM` above the
      alarm threshold, otherwise `NORMAL`. */
  function ReadingOf(c: Channel): (r: Reading)
    ensures r.name == c.name && r.value == c.value && r.unit == c.unit
    ensures r.status == CriticalReading <==> c.value > c.criticalThreshold
    ensures r.status == AlarmReading <==> c.alarmThreshold < c.value <= c.criticalThreshold
    ensures r.status == NormalReading <==> c.value <= c.alarmThreshold && c.value <= c.criticalThreshold
  {
    Reading(c.name, c.value, c.unit,
      if c.value > c.criticalThreshold then CriticalReading
      else if c.value > c.alarmThreshold then AlarmReading
      else NormalReading)
  }

  function Readings(cs: seq<Channel>): (r: seq<Reading>)
    ensures |r| == |cs| && forall i :: 0 <= i < |cs| ==> r[i] == ReadingOf(cs[i])
  {
    if cs == [] then [] else Readings(cs[..|cs| - 1]) + [ReadingOf(cs[|cs| - 1])]
  }

  /** The position of the channel called `name` (the dict lookup). */
  function IndexOf(cs: seq<Channel>, name: string): (r: Option<nat>)
    ensures r.Some? ==> r.value < |cs| && cs[r.value].name == name
    ensures r.Some? ==> forall j :: 0 <= j < r.value ==> cs[j].name != name
    ensures r.None? <==> forall j :: 0 <= j < |cs| ==> cs[j].name != name
  {
    if cs == [] then None
    else if cs[0].name == name then Some(0)
    else match IndexOf(cs[1..], name)
      case None => None
      case Some(k) => Some(k + 1)
  }

  /** `set_thresholds` on one channel: each threshold passed replaces the
      stored one; the other fields are untouched. */
  function WithThresholds(c: Channel, alarm: Option<real>, critical: Option<real>): (r: Channel)
    ensures r.(alarmThreshold := c.alarmThreshold, criticalThreshold := c.criticalThreshold) == c
    ensures r.alarmThreshold == if alarm.Some? then alarm.value else c.alarmThreshold
    ensures r.criticalThreshold == if critical.Some? then critical.value else c.criticalThreshold
  {
    var c1 := if alarm.Some? then c.(alarmThreshold := alarm.value) else c;
    if critical.Some? then c1.(criticalThreshold := critical.value) else c1
  }
}
