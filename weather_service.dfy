/** The weather simulator: targets that take a clamped random walk, a condition
    classified from the targets, readings that move a fixed fraction of the way
    toward the targets on every step, and a history bounded at 120 entries. */
module Weather {
  import opened Common
  import opened WeatherModels

  /** The history never holds more than this many snapshots. */
  const HistoryCapacity := 120

  /** Lerp(a, b, t) = a + (b - a) * t. */
  function Lerp(a: real, b: real, t: real): real
  {
    a + (b - a) * t
  }

  /** For t in [0, 1] the result lies between the two ends, so it is never
      further from the target than the start was. */
  lemma LerpBetween(a: real, b: real, t: real)
    requires 0.0 <= t <= 1.0
    ensures MinReal(a, b) <= Lerp(a, b, t) <= MaxReal(a, b)
    ensures AbsReal(Lerp(a, b, t) - b) <= AbsReal(a - b)
  {
    if a <= b {
      assert (b - a) * t == Scaled(b - a, t);
    } else {
      assert (b - a) * t == -Scaled(a - b, t);
    }
  }

  /** The C# remainder x % m on doubles: the sign follows the dividend. */
  function RemReal(x: real, m: real): real
    requires m > 0.0
  {
    x - m * Trunc(x / m) as real
  }

  /** For a non-negative dividend the remainder modulo 360 lies in [0, 360) and
      differs from the dividend by a whole number of turns. */
  lemma Rem360Range(x: real)
    requires 0.0 <= x
    ensures 0.0 <= RemReal(x, 360.0) < 360.0
    ensures x - RemReal(x, 360.0) == 360.0 * Trunc(x / 360.0) as real
    ensures x < 360.0 ==> RemReal(x, 360.0) == x
  {
    var q := Trunc(x / 360.0);
    assert q as real <= x / 360.0 < q as real + 1.0;
  }

  // ------------------------------------------------------------- draws

  /** The random numbers one step may draw, in the order it draws them:
      the update coin, the temperature, humidity, wind and direction steps,
      and the storm coin. */
  datatype Draws = Draws(update: real, tempStep: real, humStep: int, windStep: real, dirStep: int, storm: real)

  /** NextDouble draws lie in [0, 1); Next(-8, 9) and Next(-20, 21) in [-8, 8] and [-20, 20]. */
  predicate DrawsValid(d: Draws)
  {
    && 0.0 <= d.update < 1.0
    && 0.0 <= d.tempStep < 1.0
    && -8 <= d.humStep <= 8
    && 0.0 <= d.windStep < 1.0
    && -20 <= d.dirStep <= 20
    && 0.0 <= d.storm < 1.0
  }

  // ----------------------------------------------------------- targets

  datatype Targets = Targets(temp: real, hum: int, wind: real, dir: real)

  predicate TargetsInRange(t: Targets)
  {
    12.0 <= t.temp <= 34.0 && 30 <= t.hum <= 95 && 0.0 <= t.wind <= 40.0 && 0.0 <= t.dir < 360.0
  }

  /** The random walk: temperature by up to one degree within [12, 34], humidity by
      up to 8 points within [30, 95], wind by up to 2 km/h within [0, 40], and the
      direction by up to 20 degrees around the circle. */
  function WalkTargets(t: Targets, d: Draws): Targets
  {
    Targets(ClampReal(t.temp + d.tempStep * 2.0 - 1.0, 12.0, 34.0),
            ClampInt(t.hum + d.humStep, 30, 95),
            ClampReal(t.wind + d.windStep * 4.0 - 2.0, 0.0, 40.0),
            RemReal(t.dir + d.dirStep as real + 360.0, 360.0))
  }

  /** The storm pushes the wind to at least 28 km/h and humidity to at least 80 %. */
  function StormPush(t: Targets): Targets
  {
    t.(wind := MaxReal(t.wind, 28.0), hum := MaxInt(t.hum, 80))
  }

  /** The condition read off the targets when there is no storm. */
  function Classify(t: Targets): WeatherCondition
  {
    if t.wind > 18.0 then Windy
    else if t.hum > 75 then Rain
    else if t.hum > 60 then Cloudy
    else Clear
  }

  /** The first part of a step: with probability 0.08 the targets walk and the
      condition is set (Storm with probability 0.06, otherwise classified);
      otherwise targets and condition are kept. */
  function NextTargets(t: Targets, c: WeatherCondition, d: Draws): (Targets, WeatherCondition)
  {
    if d.update < 0.08 then
      var w := WalkTargets(t, d);
      if d.storm < 0.06 then (StormPush(w), Storm) else (w, Classify(w))
    else (t, c)
  }

  /** Targets stay in range across every step, the storm push included. */
  lemma NextTargetsInRange(t: Targets, c: WeatherCondition, d: Draws)
    requires TargetsInRange(t) && DrawsValid(d)
    ensures TargetsInRange(NextTargets(t, c, d).0)
  {
    Rem360Range(t.dir + d.dirStep as real + 360.0);
  }

  /** The storm branch forces wind of at least 28, humidity of at least 80 and Storm. */
  lemma StormForces(t: Targets, c: WeatherCondition, d: Draws)
    requires d.update < 0.08 && d.storm < 0.06
    ensures NextTargets(t, c, d).0.wind >= 28.0
    ensures NextTargets(t, c, d).0.hum >= 80
    ensures NextTargets(t, c, d).1 == Storm
  {
  }

  /** Without a storm an update classifies the new targets; a step without an
      update keeps targets and condition. */
  lemma ConditionRule(t: Targets, c: WeatherCondition, d: Draws)
    ensures d.update < 0.08 && d.storm >= 0.06 ==>
      NextTargets(t, c, d).1 == Classify(NextTargets(t, c, d).0)
    ensures d.update >= 0.08 ==> NextTargets(t, c, d) == (t, c)
  {
  }

  /** The classification thresholds, each way round; it never yields Storm. */
  lemma ClassifyThresholds(t: Targets)
    ensures Classify(t) == Windy <==> t.wind > 18.0
    ensures Classify(t) == Rain <==> t.wind <= 18.0 && t.hum > 75
    ensures Classify(t) == Cloudy <==> t.wind <= 18.0 && 60 < t.hum <= 75
    ensures Classify(t) == Clear <==> t.wind <= 18.0 && t.hum <= 60
    ensures Classify(t) != Storm
  {
  }

  // --------------------------------------------------------- smoothing

  predicate SnapshotInRange(s: Snapshot)
  {
    12.0 <= s.tempC <= 34.0 && 30 <= s.humidityPct <= 95 && 0.0 <= s.windKmh <= 40.0
    && 0.0 <= s.windDirDeg < 360.0
  }

  /** The second part of a step: temperature moves 8 % of the way to its target,
      humidity and wind 10 % (humidity truncated to an integer), the direction is
      blended 90/10 and brought into [0, 360), and the snapshot is stamped `time`. */
  function Smooth(s: Snapshot, t: Targets, time: int): Snapshot
  {
    s.(time := time,
       tempC := Lerp(s.tempC, t.temp, 0.08),
       humidityPct := Trunc(Lerp(s.humidityPct as real, t.hum as real, 0.10)),
       windKmh := Lerp(s.windKmh, t.wind, 0.10),
       windDirDeg := RemReal(s.windDirDeg * 0.9 + t.dir * 0.1 + 360.0, 360.0))
  }

  /** Each reading ends between its old value and its target, so readings that
      start within the target ranges stay there; the direction stays in [0, 360). */
  lemma SmoothMovesToward(s: Snapshot, t: Targets, time: int)
    requires SnapshotInRange(s) && TargetsInRange(t)
    ensures var r := Smooth(s, t, time);
      && MinReal(s.tempC, t.temp) <= r.tempC <= MaxReal(s.tempC, t.temp)
      && MinInt(s.humidityPct, t.hum) <= r.humidityPct <= MaxInt(s.humidityPct, t.hum)
      && MinReal(s.windKmh, t.wind) <= r.windKmh <= MaxReal(s.windKmh, t.wind)
      && r.condition == s.condition && r.time == time
      && SnapshotInRange(r)
  {
    LerpBetween(s.tempC, t.temp, 0.08);
    LerpBetween(s.humidityPct as real, t.hum as real, 0.10);
    LerpBetween(s.windKmh, t.wind, 0.10);
    assert 0.0 <= s.windDirDeg * 0.9 + t.dir * 0.1;
    Rem360Range(s.windDirDeg * 0.9 + t.dir * 0.1 + 360.0);
  }

  // ----------------------------------------------------------- history

  /** The queue after dequeuing while it holds more than 120 entries. */
  function Bounded(q: seq<Snapshot>): seq<Snapshot>
  {
    if |q| > HistoryCapacity then q[|q| - HistoryCapacity..] else q
  }

  /** Enqueue, then evict the oldest entries beyond the capacity. */
  function Enqueue(h: seq<Snapshot>, s: Snapshot): seq<Snapshot>
  {
    Bounded(h + [s])
  }

  /** The history grows by one until it holds 120 entries, then the oldest entry is
      evicted; the newest entry is the one just enqueued. */
  lemma EnqueueFifo(h: seq<Snapshot>, s: Snapshot)
    requires |h| <= HistoryCapacity
    ensures |Enqueue(h, s)| == MinInt(|h| + 1, HistoryCapacity)
    ensures Enqueue(h, s)[|Enqueue(h, s)| - 1] == s
    ensures |h| < HistoryCapacity ==> Enqueue(h, s) == h + [s]
    ensures |h| == HistoryCapacity ==> Enqueue(h, s) == h[1..] + [s]
  {
    if |h| == HistoryCapacity {
      assert (h + [s])[1..] == h[1..] + [s];
    }
  }

  // ------------------------------------------------------------ a step

  /** The simulator as a value: targets, current snapshot and history. */
  datatype Sim = Sim(targets: Targets, now: Snapshot, history: seq<Snapshot>)

  /** Targets and every reading in range, and a history of at most 120 entries,
      each in range. */
  ghost predicate SimValid(m: Sim)
  {
    && TargetsInRange(m.targets)
    && SnapshotInRange(m.now)
    && |m.history| <= HistoryCapacity
    && forall i :: 0 <= i < |m.history| ==> SnapshotInRange(m.history[i])
  }

  /** One step as a value. */
  function StepSpec(m: Sim, d: Draws, time: int): Sim
  {
    var (t, c) := NextTargets(m.targets, m.now.condition, d);
    var now := Smooth(m.now.(condition := c), t, time);
    Sim(t, now, Enqueue(m.history, now))
  }

  /** Every step keeps the simulator valid, and the newest history entry is the
      new current snapshot. */
  lemma {:induction false} StepKeepsValid(m: Sim, d: Draws, time: int)
    requires SimValid(m) && DrawsValid(d)
    ensures SimValid(StepSpec(m, d, time))
    ensures var r := StepSpec(m, d, time);
      |r.history| > 0 && r.history[|r.history| - 1] == r.now
  {
    var (t, c) := NextTargets(m.targets, m.now.condition, d);
    NextTargetsInRange(m.targets, m.now.condition, d);
    SmoothMovesToward(m.now.(condition := c), t, time);
    var now := Smooth(m.now.(condition := c), t, time);
    EnqueueFifo(m.history, now);
    var q := Enqueue(m.history, now);
    forall i | 0 <= i < |q|
      ensures SnapshotInRange(q[i])
    {
      if |m.history| == HistoryCapacity {
        assert q == m.history[1..] + [now];
        if i < |q| - 1 {
          assert q[i] == m.history[i + 1];
        }
      } else {
        assert q == m.history + [now];
      }
    }
  }

  // ----------------------------------------------------------- advice

  /** The three advisory messages, strongest first. */
  datatype Advice = StormWarning | RainOrVariableWind | ModerateWind

  /** CurrentAdvice on a condition and a wind speed; None is the null message. */
  function AdviceFor(c: WeatherCondition, wind: real): Option<Advice>
  {
    if c == Storm || wind >= 35.0 then Some(StormWarning)
    else if c == Rain || wind >= 22.0 then Some(RainOrVariableWind)
    else if wind >= 15.0 then Some(ModerateWind)
    else None
  }

  /** How strong an advice is: 0 for none up to 3 for the storm warning. */
  function Level(a: Option<Advice>): (n: nat)
    ensures n <= 3
    ensures n == 0 <==> a.None?
  {
    match a
    case None => 0
    case Some(ModerateWind) => 1
    case Some(RainOrVariableWind) => 2
    case Some(StormWarning) => 3
  }

  /** The tiers, each way round. */
  lemma AdviceTiers(c: WeatherCondition, wind: real)
    ensures AdviceFor(c, wind) == Some(StormWarning) <==> c == Storm || wind >= 35.0
    ensures AdviceFor(c, wind) == Some(RainOrVariableWind) <==> c != Storm && wind < 35.0 && (c == Rain || wind >= 22.0)
    ensures AdviceFor(c, wind) == Some(ModerateWind) <==> c != Storm && c != Rain && 15.0 <= wind < 22.0
    ensures AdviceFor(c, wind).None? <==> c != Storm && c != Rain && wind < 15.0
  {
  }

  /** The advice escalates: more wind never gives a weaker advice. */
  lemma AdviceEscalates(c: WeatherCondition, w1: real, w2: real)
    requires w1 <= w2
    ensures Level(AdviceFor(c, w1)) <= Level(AdviceFor(c, w2))
  {
  }

  /** WindStrength01: the wind over 40 km/h, clamped into [0, 1]. */
  function WindStrength(wind: real): (r: real)
    ensures 0.0 <= r <= 1.0
  {
    ClampReal(wind / 40.0, 0.0, 1.0)
  }

  /** Within the wind range the strength is the plain ratio, and it grows with the wind. */
  lemma WindStrengthRatio(w1: real, w2: real)
    requires w1 <= w2
    ensures 0.0 <= w1 <= 40.0 ==> WindStrength(w1) == w1 / 40.0
    ensures WindStrength(w1) <= WindStrength(w2)
  {
  }

  // ----------------------------------------------------------- service

  class WeatherService {
    var state: WeatherState
    var targetTemp: real
    var targetHum: int
    var targetWind: real
    var targetDir: real
    /** Every state StateChanged has been raised with, oldest first. */
    ghost var published: seq<WeatherView>

    ghost function Current(): Sim
      reads this, state, state.now
    {
      Sim(Targets(targetTemp, targetHum, targetWind, targetDir), state.now.View(), state.history)
    }

    ghost predicate Valid()
      reads this, state, state.now
    {
      SimValid(Current())
    }

    /** Targets 22 degrees, 60 %, 8 km/h and 220 degrees; readings 21.5 degrees, 65 %,
        7.5 km/h, 220 degrees and Clear, stamped `time`; an empty history. */
    constructor (time: int)
      ensures Valid() && fresh(state) && fresh(state.now) && published == []
      ensures Current() == Sim(Targets(22.0, 60, 8.0, 220.0), Snapshot(time, 21.5, 65, 7.5, 220.0, Clear), [])
    {
      var st := new WeatherState(time);
      st.now.tempC := 21.5;
      st.now.humidityPct := 65;
      st.now.windKmh := 7.5;
      st.now.windDirDeg := 220.0;
      st.now.condition := Clear;
      state := st;
      targetTemp := 22.0;
      targetHum := 60;
      targetWind := 8.0;
      targetDir := 220.0;
      published := [];
    }

    /** The wind strength, in [0, 1]. */
    function WindStrength01(): (r: real)
      reads this, state, state.now
      ensures 0.0 <= r <= 1.0
    {
      WindStrength(state.now.windKmh)
    }

    /** The current wind direction, in [0, 360) on a valid simulator. */
    function WindDirDeg(): (r: real)
      reads this, state, state.now
      requires Valid()
      ensures 0.0 <= r < 360.0
    {
      state.now.windDirDeg
    }

    /** The advice for the current condition and wind. */
    function CurrentAdvice(): (r: Option<Advice>)
      reads this, state, state.now
      ensures r.None? ==> state.now.condition != Storm && state.now.condition != Rain && state.now.windKmh < 15.0
    {
      AdviceTiers(state.now.condition, state.now.windKmh);
      AdviceFor(state.now.condition, state.now.windKmh)
    }

    /** One timer tick: maybe walk the targets, move the readings toward them,
        enqueue a copy of the current snapshot, and publish. */
    method Step(d: Draws, time: int)
      requires Valid() && DrawsValid(d)
      modifies this, state, state.now
      ensures state == old(state) && state.now == old(state.now)
      ensures Current() == StepSpec(old(Current()), d, time)
      ensures Valid()
      ensures published == old(published) + [state.View()]
    {
      ghost var m0 := Current();
      if d.update < 0.08 {
        UpdateTargets(d);
      }
      SmoothTowardTargets(time);
      RecordNow();
      StepKeepsValid(m0, d, time);
      published := published + [state.View()];
    }

    /** The target update of a step, with the storm push and the condition. */
    method UpdateTargets(d: Draws)
      requires d.update < 0.08
      modifies this, state.now
      ensures state == old(state) && state.history == old(state.history) && published == old(published)
      ensures var (t, c) := NextTargets(old(Current()).targets, old(state.now.condition), d);
        Targets(targetTemp, targetHum, targetWind, targetDir) == t
        && state.now.View() == old(state.now.View()).(condition := c)
    {
      targetTemp := ClampReal(targetTemp + d.tempStep * 2.0 - 1.0, 12.0, 34.0);
      targetHum := ClampInt(targetHum + d.humStep, 30, 95);
      targetWind := ClampReal(targetWind + d.windStep * 4.0 - 2.0, 0.0, 40.0);
      targetDir := RemReal(targetDir + d.dirStep as real + 360.0, 360.0);
      if d.storm < 0.06 {
        targetWind := MaxReal(targetWind, 28.0);
        targetHum := MaxInt(targetHum, 80);
        state.now.condition := Storm;
      } else if targetWind > 18.0 {
        state.now.condition := Windy;
      } else if targetHum > 75 {
        state.now.condition := Rain;
      } else if targetHum > 60 {
        state.now.condition := Cloudy;
      } else {
        state.now.condition := Clear;
      }
    }

    /** The readings move toward the targets and the snapshot is stamped. */
    method SmoothTowardTargets(time: int)
      modifies state.now
      ensures state.now.View() == Smooth(old(state.now.View()), Targets(targetTemp, targetHum, targetWind, targetDir), time)
    {
      state.now.tempC := Lerp(state.now.tempC, targetTemp, 0.08);
      state.now.humidityPct := Trunc(Lerp(state.now.humidityPct as real, targetHum as real, 0.10));
      state.now.windKmh := Lerp(state.now.windKmh, targetWind, 0.10);
      state.now.windDirDeg := RemReal(state.now.windDirDeg * 0.9 + targetDir * 0.1 + 360.0, 360.0);
      state.now.time := time;
    }

    /** Enqueues a copy of the current snapshot, then dequeues while the history
        holds more than 120 entries. */
    method RecordNow()
      modifies state
      ensures state.now == old(state.now)
      ensures state.history == Enqueue(old(state.history), state.now.View())
    {
      state.history := state.history + [state.now.View()];
      while |state.history| > HistoryCapacity
        invariant state.now == old(state.now)
        invariant Bounded(state.history) == Enqueue(old(state.history), state.now.View())
        decreases |state.history|
      {
        assert state.history[1..][|state.history| - 1 - HistoryCapacity..]
            == state.history[|state.history| - HistoryCapacity..];
        state.history := state.history[1..];
      }
    }
  }
}
