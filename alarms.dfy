/** The enhanced system's alarm logic (enhanced_sensor_system.py,
    `_check_comprehensive_alarms` and `_check_trend_alarms`): threshold
    alarms per `sensor_severity` key with a 30 s cooldown, trend alarms per
    `sensor_trend` key with a 300 s cooldown, and the log trimmed to its
    newest 100 entries. Each pass is a fold over the channels in dict order
    whose state is the alarms emitted so far and the cooldown map. */
module AlarmEngine {
  import opened Common
  import opened SensorModel
  import opened Regression

  /** The keys of `last_alarm_time`: `f"{sensor}_{severity}"` for threshold
      alarms and `f"{sensor}_trend"` for trend alarms. */
  datatype AlarmKey = ThresholdKey(sensor: string, severity: Severity) | TrendKey(sensor: string)

  /** `last_alarm_time`: when each key last raised an alarm, in seconds. */
  type Cooldowns = map<AlarmKey, real>

  const AlarmCooldown: real := 30.0
  const TrendCooldown: real := 300.0
  const LogCapacity: nat := 100

  /** `CRITICAL` above the critical threshold, otherwise `HIGH` above the
      alarm threshold, otherwise no threshold alarm. */
  function Classify(c: Channel): (r: Option<Severity>)
    ensures r == Some(Critical) <==> c.value > c.criticalThreshold
    ensures r == Some(High) <==> c.alarmThreshold < c.value <= c.criticalThreshold
    ensures r.None? <==> c.value <= c.alarmThreshold && c.value <= c.criticalThreshold
    ensures r != Some(Medium)
  {
    if c.value > c.criticalThreshold then Some(Critical)
    else if c.value > c.alarmThreshold then Some(High)
    else None
  }

  function PriorityOf(s: Severity): (p: nat)
    ensures 1 <= p <= 3
    ensures s == Critical <==> p == 1
    ensures s == High <==> p == 2
  {
    match s
    case Critical => 1
    case High => 2
    case Medium => 3
  }

  /** The cooldown key an alarm record is filed under; trend alarms are the
      only `MEDIUM` ones. */
  function KeyOf(a: Alarm): AlarmKey
  {
    if a.severity == Medium then TrendKey(a.sensor) else ThresholdKey(a.sensor, a.severity)
  }

  /** The record of a threshold alarm: it carries the threshold that fired. */
  function ThresholdAlarm(c: Channel, s: Severity, now: real): (a: Alarm)
    requires s != Medium
    ensures a.timestamp == now && a.sensor == c.name && a.value == c.value
    ensures a.severity == s && a.priority == PriorityOf(s)
    ensures a.threshold == if s == Critical then c.criticalThreshold else c.alarmThreshold
    ensures KeyOf(a) == ThresholdKey(c.name, s)
  {
    Alarm(now, c.name, s, PriorityOf(s), c.value,
          if s == Critical then c.criticalThreshold else c.alarmThreshold)
  }

  /** A threshold alarm is held back while fewer than 30 s have passed since
      the last one under the same key. */
  predicate Suppressed(cd: Cooldowns, k: AlarmKey, now: real)
  {
    k in cd && now - cd[k] < AlarmCooldown
  }

  /** A trend alarm may fire when its key is new or more than 300 s old. */
  predicate TrendReady(cd: Cooldowns, k: AlarmKey, now: real)
  {
    k !in cd || now - cd[k] > TrendCooldown
  }

  /** Strong upward trend that would cross the alarm threshold within the
      next ten readings. */
  predicate TrendWarns(c: Channel, t: Trend)
  {
    t.rSquared > 0.7 && t.slope > 0.0 && c.value + t.slope * 10.0 > c.alarmThreshold
  }

  function TrendAlarm(c: Channel, now: real): (a: Alarm)
    ensures a.severity == Medium && a.priority == 3 && KeyOf(a) == TrendKey(c.name)
    ensures a.timestamp == now && a.value == c.value && a.threshold == c.alarmThreshold
  {
    Alarm(now, c.name, Medium, 3, c.value, c.alarmThreshold)
  }

  /** The state of one pass: the alarms raised so far and the cooldown map. */
  datatype Pass = Pass(emitted: seq<Alarm>, cooldowns: Cooldowns)

  /** One channel of the threshold loop. */
  function DirectStep(p: Pass, c: Channel, now: real): Pass
  {
    match Classify(c)
    case None => p
    case Some(s) =>
      var k := ThresholdKey(c.name, s);
      if Suppressed(p.cooldowns, k, now) then p
      else Pass(p.emitted + [ThresholdAlarm(c, s, now)], p.cooldowns[k := now])
  }

  /** The threshold loop over `cs`, in order, from `start`. */
  function DirectPass(cs: seq<Channel>, now: real, start: Pass): (r: Pass)
    ensures |start.emitted| <= |r.emitted| <= |start.emitted| + |cs|
    ensures r.emitted[..|start.emitted|] == start.emitted
  {
    if cs == [] then start
    else DirectStep(DirectPass(cs[..|cs| - 1], now, start), cs[|cs| - 1], now)
  }

  /** One channel of the trend loop. */
  function TrendStep(p: Pass, c: Channel, t: Trend, now: real): Pass
  {
    var k := TrendKey(c.name);
    if TrendWarns(c, t) && TrendReady(p.cooldowns, k, now)
    then Pass(p.emitted + [TrendAlarm(c, now)], p.cooldowns[k := now])
    else p
  }

  /** The trend loop over the channels and their trends, in order. */
  function TrendPass(cs: seq<Channel>, ts: seq<Trend>, now: real, start: Pass): (r: Pass)
    requires |ts| == |cs|
    ensures |start.emitted| <= |r.emitted| <= |start.emitted| + |cs|
    ensures r.emitted[..|start.emitted|] == start.emitted
  {
    if cs == [] then start
    else
      var n := |cs| - 1;
      TrendStep(TrendPass(cs[..n], ts[..n], now, start), cs[n], ts[n], now)
  }

  /** Extending the threshold loop by one channel is one more step. */
  lemma DirectPassStep(cs: seq<Channel>, now: real, start: Pass, i: nat)
    requires i < |cs|
    ensures DirectPass(cs[..i + 1], now, start) == DirectStep(DirectPass(cs[..i], now, start), cs[i], now)
  {
    assert cs[..i + 1][..i] == cs[..i];
  }

  /** Extending the trend loop by one channel is one more step. */
  lemma TrendPassStep(cs: seq<Channel>, ts: seq<Trend>, now: real, start: Pass, i: nat)
    requires |ts| == |cs| && i < |cs|
    ensures TrendPass(cs[..i + 1], ts[..i + 1], now, start)
      == TrendStep(TrendPass(cs[..i], ts[..i], now, start), cs[i], ts[i], now)
  {
    assert cs[..i + 1][..i] == cs[..i];
    assert ts[..i + 1][..i] == ts[..i];
  }

  /** The trend loop does not look at the alarms raised before it: starting
      it with some already emitted only prefixes them. */
  lemma {:induction false} TrendPassShift(cs: seq<Channel>, ts: seq<Trend>, now: real,
                                          e: seq<Alarm>, cd: Cooldowns)
    requires |ts| == |cs|
    ensures var r := TrendPass(cs, ts, now, Pass([], cd));
      TrendPass(cs, ts, now, Pass(e, cd)) == Pass(e + r.emitted, r.cooldowns)
  {
    if cs == [] {
      assert e + [] == e;
    } else {
      var n := |cs| - 1;
      TrendPassShift(cs[..n], ts[..n], now, e, cd);
      var r := TrendPass(cs[..n], ts[..n], now, Pass([], cd));
      assert forall a :: e + r.emitted + [a] == e + (r.emitted + [a]);
    }
  }

  /** What one alarm check leaves behind. */
  datatype Outcome = Outcome(log: seq<Alarm>, cooldowns: Cooldowns, raised: seq<Alarm>)

  /** The whole check: the threshold loop, then the trend loop, then the
      log trimmed to its newest 100 entries. */
  function Check(log: seq<Alarm>, cd: Cooldowns, cs: seq<Channel>, ts: seq<Trend>, now: real): (r: Outcome)
    requires |ts| == |cs|
    ensures |r.log| <= LogCapacity
    ensures r.log == Newest(log + r.raised, LogCapacity)
    ensures |r.raised| <= 2 * |cs|
  {
    var d := DirectPass(cs, now, Pass([], cd));
    var t := TrendPass(cs, ts, now, d);
    Outcome(Newest(log + t.emitted, LogCapacity), t.cooldowns, t.emitted)
  }

  /** The check assembled from its two loops, each started afresh. */
  lemma CheckAssembled(log: seq<Alarm>, cd: Cooldowns, cs: seq<Channel>, ts: seq<Trend>, now: real,
                       d: Pass, t: Pass)
    requires |ts| == |cs|
    requires d == DirectPass(cs, now, Pass([], cd))
    requires t == TrendPass(cs, ts, now, Pass([], d.cooldowns))
    ensures Check(log, cd, cs, ts, now)
      == Outcome(Newest(log + d.emitted + t.emitted, LogCapacity), t.cooldowns, d.emitted + t.emitted)
  {
    TrendPassShift(cs, ts, now, d.emitted, d.cooldowns);
    assert log + d.emitted + t.emitted == log + (d.emitted + t.emitted);
  }

  // ---------------------------------------------------------------------
  // The cooldown invariant of the log

  /** Two alarms under key `k` at times `earlier` and `later` are as far
      apart as the cooldown of `k` demands. */
  predicate FarEnough(k: AlarmKey, earlier: real, later: real)
  {
    if k.TrendKey? then later - earlier > TrendCooldown else later - earlier >= AlarmCooldown
  }

  /** Every logged alarm's key is in the cooldown map at or after the
      alarm's time, and any two logged alarms under the same key are at
      least a cooldown apart, in log order. */
  ghost predicate Spaced(log: seq<Alarm>, cd: Cooldowns)
  {
    (forall i :: 0 <= i < |log| ==> KeyOf(log[i]) in cd && log[i].timestamp <= cd[KeyOf(log[i])])
    && (forall i, j :: 0 <= i < j < |log| && KeyOf(log[i]) == KeyOf(log[j]) ==>
          FarEnough(KeyOf(log[i]), log[i].timestamp, log[j].timestamp))
  }

  /** Appending an alarm stamped `now` under a key that is not cooling down
      keeps the log spaced, once the key is stamped with `now`. */
  lemma AppendSpaced(log: seq<Alarm>, cd: Cooldowns, a: Alarm, now: real)
    requires Spaced(log, cd) && a.timestamp == now
    requires KeyOf(a) in cd ==> FarEnough(KeyOf(a), cd[KeyOf(a)], now)
    ensures Spaced(log + [a], cd[KeyOf(a) := now])
  {
    var k, log', cd' := KeyOf(a), log + [a], cd[KeyOf(a) := now];
    forall i | 0 <= i < |log'|
      ensures KeyOf(log'[i]) in cd' && log'[i].timestamp <= cd'[KeyOf(log'[i])]
    {
      if i < |log| {
        assert log'[i] == log[i];
      }
    }
    forall i, j | 0 <= i < j < |log'| && KeyOf(log'[i]) == KeyOf(log'[j])
      ensures FarEnough(KeyOf(log'[i]), log'[i].timestamp, log'[j].timestamp)
    {
      assert log'[i] == log[i];
      if j < |log| {
        assert log'[j] == log[j];
      }
    }
  }

  lemma {:induction false} DirectPassSpaced(log: seq<Alarm>, cs: seq<Channel>, now: real, start: Pass)
    requires Spaced(log + start.emitted, start.cooldowns)
    ensures var r := DirectPass(cs, now, start); Spaced(log + r.emitted, r.cooldowns)
  {
    if cs != [] {
      var p := DirectPass(cs[..|cs| - 1], now, start);
      DirectPassSpaced(log, cs[..|cs| - 1], now, start);
      var c := cs[|cs| - 1];
      match Classify(c)
      case None =>
      case Some(s) =>
        var k := ThresholdKey(c.name, s);
        if !Suppressed(p.cooldowns, k, now) {
          var a := ThresholdAlarm(c, s, now);
          AppendSpaced(log + p.emitted, p.cooldowns, a, now);
          assert log + p.emitted + [a] == log + (p.emitted + [a]);
        }
    }
  }

  lemma {:induction false} TrendPassSpaced(log: seq<Alarm>, cs: seq<Channel>, ts: seq<Trend>,
                                           now: real, start: Pass)
    requires |ts| == |cs| && Spaced(log + start.emitted, start.cooldowns)
    ensures var r := TrendPass(cs, ts, now, start); Spaced(log + r.emitted, r.cooldowns)
  {
    if cs != [] {
      var n := |cs| - 1;
      var p := TrendPass(cs[..n], ts[..n], now, start);
      TrendPassSpaced(log, cs[..n], ts[..n], now, start);
      var k := TrendKey(cs[n].name);
      if TrendWarns(cs[n], ts[n]) && TrendReady(p.cooldowns, k, now) {
        var a := TrendAlarm(cs[n], now);
        AppendSpaced(log + p.emitted, p.cooldowns, a, now);
        assert log + p.emitted + [a] == log + (p.emitted + [a]);
      }
    }
  }

  lemma NewestSpaced(log: seq<Alarm>, cd: Cooldowns, n: nat)
    requires Spaced(log, cd)
    ensures Spaced(Newest(log, n), cd)
  {
    var r := Newest(log, n);
    var d := |log| - |r|;
    forall i | 0 <= i < |r| ensures r[i] == log[d + i] { }
  }

  /** The alarm check keeps the log spaced: no two alarms under one
      threshold key are less than 30 s apart, no two trend alarms of one
      sensor 300 s or less, whatever the clock does between checks. */
  lemma CheckSpaced(log: seq<Alarm>, cd: Cooldowns, cs: seq<Channel>, ts: seq<Trend>, now: real)
    requires |ts| == |cs| && Spaced(log, cd)
    ensures var r := Check(log, cd, cs, ts, now); Spaced(r.log, r.cooldowns)
  {
    var d := DirectPass(cs, now, Pass([], cd));
    assert log + [] == log;
    DirectPassSpaced(log, cs, now, Pass([], cd));
    var t := TrendPass(cs, ts, now, d);
    TrendPassSpaced(log, cs, ts, now, d);
    NewestSpaced(log + t.emitted, t.cooldowns, LogCapacity);
  }

  // ---------------------------------------------------------------------
  // Reference definition: suppression judged against the map at the start

  ghost predicate DistinctNames(cs: seq<Channel>)
  {
    forall i, j :: 0 <= i < j < |cs| ==> cs[i].name != cs[j].name
  }

  ghost predicate Named(cs: seq<Channel>, name: string)
  {
    exists i :: 0 <= i < |cs| && cs[i].name == name
  }

  /** `a` and `b` agree on key `k`. */
  ghost predicate Keeps(a: Cooldowns, b: Cooldowns, k: AlarmKey)
  {
    (k in a <==> k in b) && (k in a ==> a[k] == b[k])
  }

  /** The threshold alarms of `cs` that fire and are not held back by `cd`. */
  function DirectFilter(cs: seq<Channel>, cd: Cooldowns, now: real): seq<Alarm>
  {
    if cs == [] then []
    else
      var c := cs[|cs| - 1];
      DirectFilter(cs[..|cs| - 1], cd, now) +
        match Classify(c)
        case Some(s) => if Suppressed(cd, ThresholdKey(c.name, s), now) then [] else [ThresholdAlarm(c, s, now)]
        case None => []
  }

  /** The trend alarms of `cs` that warn and are ready under `cd`. */
  function TrendFilter(cs: seq<Channel>, ts: seq<Trend>, cd: Cooldowns, now: real): seq<Alarm>
    requires |ts| == |cs|
  {
    if cs == [] then []
    else
      var n := |cs| - 1;
      TrendFilter(cs[..n], ts[..n], cd, now) +
        if TrendWarns(cs[n], ts[n]) && TrendReady(cd, TrendKey(cs[n].name), now)
        then [TrendAlarm(cs[n], now)] else []
  }

  lemma NamedPrefix(cs: seq<Channel>, name: string)
    requires cs != [] && Named(cs[..|cs| - 1], name)
    ensures Named(cs, name)
  {
    var i :| 0 <= i < |cs| - 1 && cs[..|cs| - 1][i].name == name;
    assert cs[i].name == name;
  }

  /** The threshold loop writes only the threshold keys of its channels. */
  lemma {:induction false} DirectPassWrites(cs: seq<Channel>, now: real, start: Pass, k: AlarmKey)
    requires !(k.ThresholdKey? && Named(cs, k.sensor))
    ensures Keeps(DirectPass(cs, now, start).cooldowns, start.cooldowns, k)
  {
    if cs != [] {
      var init := cs[..|cs| - 1];
      if k.ThresholdKey? && Named(init, k.sensor) {
        NamedPrefix(cs, k.sensor);
      }
      DirectPassWrites(init, now, start, k);
      assert k.ThresholdKey? ==> k.sensor != cs[|cs| - 1].name;
    }
  }

  /** The trend loop writes only the trend keys of its channels. */
  lemma {:induction false} TrendPassWrites(cs: seq<Channel>, ts: seq<Trend>, now: real, start: Pass,
                                           k: AlarmKey)
    requires |ts| == |cs| && !(k.TrendKey? && Named(cs, k.sensor))
    ensures Keeps(TrendPass(cs, ts, now, start).cooldowns, start.cooldowns, k)
  {
    if cs != [] {
      var n := |cs| - 1;
      if k.TrendKey? && Named(cs[..n], k.sensor) {
        NamedPrefix(cs, k.sensor);
      }
      TrendPassWrites(cs[..n], ts[..n], now, start, k);
      assert k.TrendKey? ==> k.sensor != cs[n].name;
    }
  }

  lemma DistinctPrefix(cs: seq<Channel>)
    requires cs != [] && DistinctNames(cs)
    ensures DistinctNames(cs[..|cs| - 1]) && !Named(cs[..|cs| - 1], cs[|cs| - 1].name)
  {
  }

  /** With distinct channel names, a channel's threshold alarm is decided by
      the cooldown map as it stood before the loop. */
  lemma {:induction false} DirectPassIsFilter(cs: seq<Channel>, now: real, start: Pass)
    requires DistinctNames(cs)
    ensures DirectPass(cs, now, start).emitted == start.emitted + DirectFilter(cs, start.cooldowns, now)
  {
    if cs == [] {
      assert start.emitted + [] == start.emitted;
    } else {
      var init, c := cs[..|cs| - 1], cs[|cs| - 1];
      DistinctPrefix(cs);
      DirectPassIsFilter(init, now, start);
      var p := DirectPass(init, now, start);
      match Classify(c)
      case None =>
      case Some(s) =>
        DirectPassWrites(init, now, start, ThresholdKey(c.name, s));
    }
  }

  /** With distinct channel names, a channel's trend alarm is decided by the
      trend keys as they stood before the loop. */
  lemma {:induction false} TrendPassIsFilter(cs: seq<Channel>, ts: seq<Trend>, now: real,
                                             start: Pass, cd: Cooldowns)
    requires |ts| == |cs| && DistinctNames(cs)
    requires forall i :: 0 <= i < |cs| ==> Keeps(start.cooldowns, cd, TrendKey(cs[i].name))
    ensures TrendPass(cs, ts, now, start).emitted == start.emitted + TrendFilter(cs, ts, cd, now)
  {
    if cs == [] {
      assert start.emitted + [] == start.emitted;
    } else {
      var n := |cs| - 1;
      DistinctPrefix(cs);
      TrendPassIsFilter(cs[..n], ts[..n], now, start, cd);
      TrendPassWrites(cs[..n], ts[..n], now, start, TrendKey(cs[n].name));
    }
  }

  /** With distinct channel names, one check raises exactly the threshold
      alarms that fire and are not cooling down, then exactly the trend
      alarms that warn and are ready, both judged against the cooldown map
      as it stood before the check; the `CRITICAL`, `HIGH` and trend keys of
      a sensor never hold each other back. */
  lemma CheckIsFilter(log: seq<Alarm>, cd: Cooldowns, cs: seq<Channel>, ts: seq<Trend>, now: real)
    requires |ts| == |cs| && DistinctNames(cs)
    ensures Check(log, cd, cs, ts, now).raised == DirectFilter(cs, cd, now) + TrendFilter(cs, ts, cd, now)
  {
    var d := DirectPass(cs, now, Pass([], cd));
    DirectPassIsFilter(cs, now, Pass([], cd));
    forall i | 0 <= i < |cs| ensures Keeps(d.cooldowns, cd, TrendKey(cs[i].name)) {
      DirectPassWrites(cs, now, Pass([], cd), TrendKey(cs[i].name));
    }
    TrendPassIsFilter(cs, ts, now, d, cd);
  }

  // ---------------------------------------------------------------------
  // What a check writes into the cooldown map

  /** `after` is `before` with the key of every alarm in `raised` stamped
      `now` and every other key as it was. */
  ghost predicate Stamped(after: Cooldowns, before: Cooldowns, raised: seq<Alarm>, now: real)
  {
    (forall a :: a in raised ==> KeyOf(a) in after && after[KeyOf(a)] == now)
    && (forall k :: (forall a :: a in raised ==> KeyOf(a) != k) ==> Keeps(after, before, k))
  }

  /** Raising one more alarm stamps its key. */
  lemma StampStep(after: Cooldowns, before: Cooldowns, raised: seq<Alarm>, a: Alarm, now: real)
    requires Stamped(after, before, raised, now)
    ensures Stamped(after[KeyOf(a) := now], before, raised + [a], now)
  {
    var after' := after[KeyOf(a) := now];
    forall b | b in raised + [a] ensures KeyOf(b) in after' && after'[KeyOf(b)] == now {
      if b != a {
        assert b in raised;
      }
    }
    forall k | forall b :: b in raised + [a] ==> KeyOf(b) != k
      ensures Keeps(after', before, k)
    {
      assert a in raised + [a];
      forall b | b in raised ensures KeyOf(b) != k {
        assert b in raised + [a];
      }
      assert Keeps(after, before, k);
    }
  }

  /** Two stampings in a row are one stamping with both sets of alarms. */
  lemma StampCompose(cd2: Cooldowns, cd1: Cooldowns, cd0: Cooldowns, e1: seq<Alarm>, e2: seq<Alarm>, now: real)
    requires Stamped(cd1, cd0, e1, now) && Stamped(cd2, cd1, e2, now)
    ensures Stamped(cd2, cd0, e1 + e2, now)
  {
    forall a | a in e1 + e2 ensures KeyOf(a) in cd2 && cd2[KeyOf(a)] == now {
      if a !in e2 && (forall b :: b in e2 ==> KeyOf(b) != KeyOf(a)) {
        assert Keeps(cd2, cd1, KeyOf(a));
      }
    }
    forall k | forall a :: a in e1 + e2 ==> KeyOf(a) != k
      ensures Keeps(cd2, cd0, k)
    {
      assert forall a :: a in e1 ==> a in e1 + e2;
      assert forall a :: a in e2 ==> a in e1 + e2;
      assert Keeps(cd1, cd0, k) && Keeps(cd2, cd1, k);
    }
  }

  /** The threshold loop stamps exactly the keys of the alarms it raises. */
  lemma {:induction false} DirectPassStamps(cs: seq<Channel>, now: real, start: Pass)
    ensures var r := DirectPass(cs, now, start);
      Stamped(r.cooldowns, start.cooldowns, r.emitted[|start.emitted|..], now)
  {
    if cs == [] {
      assert start.emitted[|start.emitted|..] == [];
    } else {
      var p := DirectPass(cs[..|cs| - 1], now, start);
      DirectPassStamps(cs[..|cs| - 1], now, start);
      var e := p.emitted[|start.emitted|..];
      var c := cs[|cs| - 1];
      match Classify(c)
      case None =>
      case Some(s) =>
        var k := ThresholdKey(c.name, s);
        if !Suppressed(p.cooldowns, k, now) {
          var a := ThresholdAlarm(c, s, now);
          StampStep(p.cooldowns, start.cooldowns, e, a, now);
          assert (p.emitted + [a])[|start.emitted|..] == e + [a];
        }
    }
  }

  /** The trend loop stamps exactly the keys of the alarms it raises. */
  lemma {:induction false} TrendPassStamps(cs: seq<Channel>, ts: seq<Trend>, now: real, start: Pass)
    requires |ts| == |cs|
    ensures var r := TrendPass(cs, ts, now, start);
      Stamped(r.cooldowns, start.cooldowns, r.emitted[|start.emitted|..], now)
  {
    if cs == [] {
      assert start.emitted[|start.emitted|..] == [];
    } else {
      var n := |cs| - 1;
      var p := TrendPass(cs[..n], ts[..n], now, start);
      TrendPassStamps(cs[..n], ts[..n], now, start);
      var e := p.emitted[|start.emitted|..];
      if TrendWarns(cs[n], ts[n]) && TrendReady(p.cooldowns, TrendKey(cs[n].name), now) {
        var a := TrendAlarm(cs[n], now);
        StampStep(p.cooldowns, start.cooldowns, e, a, now);
        assert (p.emitted + [a])[|start.emitted|..] == e + [a];
      }
    }
  }

  /** After a check, the key of every alarm it raised holds `now`, and
      every other key of the cooldown map is as it was. */
  lemma CheckStamps(log: seq<Alarm>, cd: Cooldowns, cs: seq<Channel>, ts: seq<Trend>, now: real)
    requires |ts| == |cs|
    ensures var r := Check(log, cd, cs, ts, now);
      (forall a :: a in r.raised ==> KeyOf(a) in r.cooldowns && r.cooldowns[KeyOf(a)] == now)
      && (forall k :: (forall a :: a in r.raised ==> KeyOf(a) != k) ==> Keeps(r.cooldowns, cd, k))
  {
    var d := DirectPass(cs, now, Pass([], cd));
    var t := TrendPass(cs, ts, now, d);
    DirectPassStamps(cs, now, Pass([], cd));
    assert d.emitted[0..] == d.emitted;
    TrendPassStamps(cs, ts, now, d);
    var e2 := t.emitted[|d.emitted|..];
    StampCompose(t.cooldowns, d.cooldowns, cd, d.emitted, e2, now);
    assert t.emitted == d.emitted + e2;
  }

  /** A channel past a threshold is passed by the filter when its key is
      not cooling down. */
  lemma {:induction false} DirectFilterHas(cs: seq<Channel>, cd: Cooldowns, now: real, i: nat, s: Severity)
    requires i < |cs| && Classify(cs[i]) == Some(s)
    requires !Suppressed(cd, ThresholdKey(cs[i].name, s), now)
    ensures ThresholdAlarm(cs[i], s, now) in DirectFilter(cs, cd, now)
  {
    var n := |cs| - 1;
    if i < n {
      DirectFilterHas(cs[..n], cd, now, i, s);
    }
  }

  /** A threshold alarm re-arms: a channel past a threshold raises its
      alarm again once its key is unknown or at least 30 s old. */
  lemma ThresholdRearms(log: seq<Alarm>, cd: Cooldowns, cs: seq<Channel>, ts: seq<Trend>, now: real,
                        i: nat, s: Severity)
    requires |ts| == |cs| && DistinctNames(cs) && i < |cs| && Classify(cs[i]) == Some(s)
    requires ThresholdKey(cs[i].name, s) in cd ==> now - cd[ThresholdKey(cs[i].name, s)] >= AlarmCooldown
    ensures ThresholdAlarm(cs[i], s, now) in Check(log, cd, cs, ts, now).raised
  {
    CheckIsFilter(log, cd, cs, ts, now);
    DirectFilterHas(cs, cd, now, i, s);
  }

  /** A check of a single channel with no trend is one step of the
      threshold loop. */
  lemma CheckSingle(log: seq<Alarm>, cd: Cooldowns, c: Channel, now: real)
    ensures var r, p := Check(log, cd, [c], [Neutral], now), DirectStep(Pass([], cd), c, now);
      r.raised == p.emitted && r.cooldowns == p.cooldowns
  {
    assert [c][..0] == [] && [Neutral][..0] == [];
    var d := DirectPass([c], now, Pass([], cd));
    assert DirectPass([c][..0], now, Pass([], cd)) == Pass([], cd);
    assert d == DirectStep(Pass([], cd), c, now);
    assert TrendPass([c], [Neutral], now, d) == TrendStep(d, c, Neutral, now) == d;
  }

  /** A single channel past a threshold whose key is not cooling down
      raises its alarm and stamps its key. */
  lemma CheckSingleRaises(log: seq<Alarm>, cd: Cooldowns, c: Channel, now: real, s: Severity)
    requires Classify(c) == Some(s) && !Suppressed(cd, ThresholdKey(c.name, s), now)
    ensures var r := Check(log, cd, [c], [Neutral], now);
      r.raised == [ThresholdAlarm(c, s, now)] && r.cooldowns == cd[ThresholdKey(c.name, s) := now]
  {
    CheckSingle(log, cd, c, now);
  }

  /** A single channel past a threshold whose key is cooling down raises
      nothing and leaves the map as it was. */
  lemma CheckSingleHeld(log: seq<Alarm>, cd: Cooldowns, c: Channel, now: real, s: Severity)
    requires Classify(c) == Some(s) && Suppressed(cd, ThresholdKey(c.name, s), now)
    ensures var r := Check(log, cd, [c], [Neutral], now);
      r.raised == [] && r.cooldowns == cd
  {
    CheckSingle(log, cd, c, now);
  }

  /** Four checks of one channel with alarm threshold 90 and critical
      threshold 95 and no trend, each starting from the cooldown map the
      previous one left (the log does not matter): 92 at 0 s raises
      `HIGH`; 96 at 5 s raises `CRITICAL`, under its own key; 93 at 10 s
      is held back, since the `HIGH` key is 10 s old; 93 at 30 s raises
      `HIGH` again. */
  lemma CooldownScenario(c: Channel, log: seq<Alarm>)
    requires c.alarmThreshold == 90.0 && c.criticalThreshold == 95.0
    ensures var hi := ThresholdKey(c.name, High);
      var r := Check(log, map[], [c.(value := 92.0)], [Neutral], 0.0);
      r.raised == [ThresholdAlarm(c.(value := 92.0), High, 0.0)] && r.cooldowns == map[hi := 0.0]
    ensures var hi, cr := ThresholdKey(c.name, High), ThresholdKey(c.name, Critical);
      var r := Check(log, map[hi := 0.0], [c.(value := 96.0)], [Neutral], 5.0);
      r.raised == [ThresholdAlarm(c.(value := 96.0), Critical, 5.0)] && r.cooldowns == map[hi := 0.0, cr := 5.0]
    ensures var hi, cr := ThresholdKey(c.name, High), ThresholdKey(c.name, Critical);
      var r := Check(log, map[hi := 0.0, cr := 5.0], [c.(value := 93.0)], [Neutral], 10.0);
      r.raised == [] && r.cooldowns == map[hi := 0.0, cr := 5.0]
    ensures var hi, cr := ThresholdKey(c.name, High), ThresholdKey(c.name, Critical);
      var r := Check(log, map[hi := 0.0, cr := 5.0], [c.(value := 93.0)], [Neutral], 30.0);
      r.raised == [ThresholdAlarm(c.(value := 93.0), High, 30.0)] && r.cooldowns == map[hi := 30.0, cr := 5.0]
  {
    hide Check, DirectPass, TrendPass, Newest, DirectStep, TrendStep;
    var hi, cr := ThresholdKey(c.name, High), ThresholdKey(c.name, Critical);
    CheckSingleRaises(log, map[], c.(value := 92.0), 0.0, High);
    CheckSingleRaises(log, map[hi := 0.0], c.(value := 96.0), 5.0, Critical);
    CheckSingleHeld(log, map[hi := 0.0, cr := 5.0], c.(value := 93.0), 10.0, High);
    CheckSingleRaises(log, map[hi := 0.0, cr := 5.0], c.(value := 93.0), 30.0, High);
  }
}
