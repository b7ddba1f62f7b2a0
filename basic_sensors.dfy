/** What the two simple variants of the monitoring demo have in common: the
    bucket elevator (main9.py) and the conveyor belt (convy.py, identical in
    logic to main_conv.py). Each keeps channels with a fixed range and one
    alarm threshold, logs one alarm per over-threshold channel on every
    update, wears a maintenance score down by thresholded degradation terms
    and rebuilds a recommendation list from five score limits. */
module BasicSensors {
  import opened Common
  import SensorModel

  /** One entry of the simple `sensors` dict. */
  datatype Gauge = Gauge(
    name: string,
    unit: string,
    value: real,
    minValue: real,
    maxValue: real,
    alarmThreshold: real)

  /** Entries kept per channel history (`pop(0)` past 100). */
  const HistoryCapacity: nat := 100

  /** Every channel has a non-empty range. */
  ghost predicate Ranged(gs: seq<Gauge>)
  {
    forall i :: 0 <= i < |gs| ==> gs[i].minValue <= gs[i].maxValue
  }

  /** Every channel value lies within its range. */
  ghost predicate Settled(gs: seq<Gauge>)
  {
    forall i :: 0 <= i < |gs| ==> gs[i].minValue <= gs[i].value <= gs[i].maxValue
  }

  /** `a` and `b` differ at most in the current values. */
  ghost predicate SameSetup(a: seq<Gauge>, b: seq<Gauge>)
  {
    |a| == |b| && forall i :: 0 <= i < |a| ==> a[i].(value := b[i].value) == b[i]
  }

  /** The channels of `gs` with their values replaced by `values`. */
  function WithValues(gs: seq<Gauge>, values: seq<real>): (r: seq<Gauge>)
    requires |values| == |gs|
    ensures SameSetup(r, gs)
    ensures forall i :: 0 <= i < |r| ==> r[i].value == values[i]
  {
    seq(|gs|, i requires 0 <= i < |gs| => gs[i].(value := values[i]))
  }

  /** `max(min, min(max, value))` on one channel. */
  function Clamped(g: Gauge): Gauge
  {
    g.(value := Clamp(g.value, g.minValue, g.maxValue))
  }

  /** The clamping loop over all channels. */
  function ClampedAll(gs: seq<Gauge>): (r: seq<Gauge>)
    ensures |r| == |gs| && forall i :: 0 <= i < |gs| ==> r[i] == Clamped(gs[i])
  {
    seq(|gs|, i requires 0 <= i < |gs| => Clamped(gs[i]))
  }

  /** Clamping keeps the configuration, brings every value into its range,
      and leaves a value that was already in range where it was. */
  lemma ClampSettles(gs: seq<Gauge>)
    requires Ranged(gs)
    ensures SameSetup(ClampedAll(gs), gs) && Settled(ClampedAll(gs))
    ensures forall i :: 0 <= i < |gs| ==>
      (gs[i].minValue <= gs[i].value <= gs[i].maxValue ==> ClampedAll(gs)[i] == gs[i])
  {
  }

  /** The history buffers after one sample per channel. */
  function Recorded(hs: seq<seq<SensorModel.Sample>>, gs: seq<Gauge>, now: real): (r: seq<seq<SensorModel.Sample>>)
    requires |hs| == |gs|
    ensures |r| == |hs|
    ensures forall i :: 0 <= i < |hs| && |hs[i]| <= HistoryCapacity ==>
      |r[i]| <= HistoryCapacity && r[i] == Newest(hs[i] + [SensorModel.Sample(now, gs[i].value)], HistoryCapacity)
  {
    seq(|hs|, i requires 0 <= i < |hs| => Push(hs[i], SensorModel.Sample(now, gs[i].value), HistoryCapacity))
  }

  /** Every history buffer is within the capacity. */
  ghost predicate Capped(hs: seq<seq<SensorModel.Sample>>)
  {
    forall i :: 0 <= i < |hs| ==> |hs[i]| <= HistoryCapacity
  }

  /** One alarm record. Only the conveyor records carry the channel's unit. */
  datatype Notice = Notice(
    timestamp: real,
    sensor: string,
    value: real,
    unit: Option<string>,
    threshold: real,
    severity: Severity)

  /** A channel strictly above its alarm threshold. */
  predicate Over(g: Gauge)
  {
    g.value > g.alarmThreshold
  }

  /** The alarm a channel raises: `HIGH` more than 10% past the threshold,
      `MEDIUM` otherwise. */
  function NoticeOf(g: Gauge, now: real, withUnit: bool): (r: Notice)
    ensures r.timestamp == now && r.sensor == g.name && r.value == g.value
    ensures r.threshold == g.alarmThreshold
    ensures r.unit == if withUnit then Some(g.unit) else None
    ensures r.severity == High <==> g.value > g.alarmThreshold * 1.1
    ensures r.severity != Critical
  {
    Notice(now, g.name, g.value, if withUnit then Some(g.unit) else None, g.alarmThreshold,
      if g.value > g.alarmThreshold * 1.1 then High else Medium)
  }

  /** The alarms one `check_alarms` call appends, in channel order. */
  function Triggered(gs: seq<Gauge>, now: real, withUnit: bool): (r: seq<Notice>)
    ensures |r| <= |gs|
  {
    if gs == [] then []
    else
      var last := gs[|gs| - 1];
      Triggered(gs[..|gs| - 1], now, withUnit) + (if Over(last) then [NoticeOf(last, now, withUnit)] else [])
  }

  lemma TriggeredStep(gs: seq<Gauge>, now: real, withUnit: bool, i: nat)
    requires i < |gs|
    ensures Triggered(gs[..i + 1], now, withUnit)
      == Triggered(gs[..i], now, withUnit) + (if Over(gs[i]) then [NoticeOf(gs[i], now, withUnit)] else [])
  {
    assert gs[..i + 1][..i] == gs[..i];
  }

  /** An alarm is logged exactly for the channels above their threshold. */
  lemma {:induction false} TriggeredExactly(gs: seq<Gauge>, now: real, withUnit: bool)
    ensures forall n :: n in Triggered(gs, now, withUnit) <==>
      exists i :: 0 <= i < |gs| && Over(gs[i]) && n == NoticeOf(gs[i], now, withUnit)
  {
    if gs != [] {
      var init := gs[..|gs| - 1];
      TriggeredExactly(init, now, withUnit);
      forall n | n in Triggered(gs, now, withUnit)
        ensures exists i :: 0 <= i < |gs| && Over(gs[i]) && n == NoticeOf(gs[i], now, withUnit)
      {
        if n in Triggered(init, now, withUnit) {
          var i :| 0 <= i < |init| && Over(init[i]) && n == NoticeOf(init[i], now, withUnit);
          assert gs[i] == init[i];
        } else {
          assert Over(gs[|gs| - 1]) && n == NoticeOf(gs[|gs| - 1], now, withUnit);
        }
      }
      forall n | exists i :: 0 <= i < |gs| && Over(gs[i]) && n == NoticeOf(gs[i], now, withUnit)
        ensures n in Triggered(gs, now, withUnit)
      {
        var i :| 0 <= i < |gs| && Over(gs[i]) && n == NoticeOf(gs[i], now, withUnit);
        if i < |init| {
          assert init[i] == gs[i];
        }
      }
    }
  }

  /** No two alarms in `ns` name the same channel. */
  predicate DistinctSensors(ns: seq<Notice>)
  {
    forall i, j :: 0 <= i < j < |ns| ==> ns[i].sensor != ns[j].sensor
  }

  /** With distinct channel names no channel is logged twice in one call, so
      together with `TriggeredExactly` each over-threshold channel gets
      exactly one alarm. */
  lemma {:induction false} TriggeredOnce(gs: seq<Gauge>, now: real, withUnit: bool)
    requires forall i, j :: 0 <= i < j < |gs| ==> gs[i].name != gs[j].name
    ensures DistinctSensors(Triggered(gs, now, withUnit))
  {
    if gs != [] {
      var init := gs[..|gs| - 1];
      var last := gs[|gs| - 1];
      TriggeredOnce(init, now, withUnit);
      TriggeredExactly(init, now, withUnit);
      var earlier := Triggered(init, now, withUnit);
      forall k | 0 <= k < |earlier| ensures earlier[k].sensor != last.name {
        assert earlier[k] in earlier;
        var i :| 0 <= i < |init| && Over(init[i]) && earlier[k] == NoticeOf(init[i], now, withUnit);
        assert init[i] == gs[i];
      }
      var r := Triggered(gs, now, withUnit);
      var tail := if Over(last) then [NoticeOf(last, now, withUnit)] else [];
      assert r == earlier + tail;
      forall i, j | 0 <= i < j < |r| ensures r[i].sensor != r[j].sensor {
        if j >= |earlier| {
          assert |tail| == 1 && i < |earlier|;
          assert r[j] == tail[0] == NoticeOf(last, now, withUnit);
          assert r[i] == earlier[i] && earlier[i].sensor != last.name;
        } else {
          assert r[i] == earlier[i] && r[j] == earlier[j];
        }
      }
    }
  }

  /** One degradation term: how far `value / limit` is past `knee`, times
      `weight`; nothing when the ratio does not exceed the knee. */
  function Excess(value: real, limit: real, knee: real, weight: real): (r: real)
    requires limit > 0.0 && weight > 0.0
    ensures r >= 0.0
    ensures r > 0.0 <==> value / limit > knee
  {
    var ratio := value / limit;
    if ratio > knee then (ratio - knee) * weight else 0.0
  }

  /** `max(0, score - degradation * 0.01)`. */
  function Decayed(score: real, degradation: real): (r: real)
    ensures r >= 0.0
    ensures 0.0 <= score && 0.0 <= degradation ==> r <= score
    ensures r > 0.0 ==> r == score - degradation * 0.01
  {
    Max(0.0, score - degradation * 0.01)
  }

  /** The score limits of the five recommendations, most lenient first. */
  const AdviceLimits: seq<real> := [90.0, 80.0, 70.0, 60.0, 50.0]

  /** How many recommendations a score earns: the number of limits it is
      below. */
  function AdviceCount(score: real): nat
  {
    if score < 50.0 then 5
    else if score < 60.0 then 4
    else if score < 70.0 then 3
    else if score < 80.0 then 2
    else if score < 90.0 then 1
    else 0
  }

  /** The i-th recommendation is given iff the score is below the i-th limit;
      since the limits descend, the given ones always form a prefix. */
  lemma AdviceSelects(score: real)
    ensures AdviceCount(score) <= |AdviceLimits|
    ensures forall i :: 0 <= i < |AdviceLimits| ==> (i < AdviceCount(score) <==> score < AdviceLimits[i])
  {
  }

  /** The rebuilt recommendation list. */
  function Advice(score: real, messages: seq<string>): (r: seq<string>)
    requires |messages| == |AdviceLimits|
    ensures |r| <= |messages| && r == messages[..|r|]
    ensures forall i :: 0 <= i < |messages| ==> (i < |r| <==> score < AdviceLimits[i])
  {
    AdviceSelects(score);
    messages[..AdviceCount(score)]
  }

  /** A lower score never earns fewer recommendations. */
  lemma AdviceGrowsAsScoreFalls(lower: real, higher: real, messages: seq<string>)
    requires |messages| == |AdviceLimits| && lower <= higher
    ensures Advice(higher, messages) == Advice(lower, messages)[..|Advice(higher, messages)|]
  {
  }
}
