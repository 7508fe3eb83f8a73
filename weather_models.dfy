/** The weather data model: conditions, a snapshot of the readings and the
    weather state with its history queue. */
module WeatherModels {

  datatype WeatherCondition = Clear | Cloudy | Windy | Rain | Storm

  /** The value form of a snapshot. `time` stands for the DateTime stamp. */
  datatype Snapshot = Snapshot(
    time: int,
    tempC: real,
    humidityPct: int,
    windKmh: real,
    windDirDeg: real,
    condition: WeatherCondition)

  /** One reading of the weather, updated in place by the simulator. */
  class WeatherSnapshot {
    var time: int
    var tempC: real
    var humidityPct: int
    var windKmh: real
    var windDirDeg: real
    var condition: WeatherCondition

    function View(): Snapshot
      reads this
    {
      Snapshot(time, tempC, humidityPct, windKmh, windDirDeg, condition)
    }

    /** A new snapshot stamped `time`, with every reading zero and condition Clear. */
    constructor (time: int)
      ensures View() == Snapshot(time, 0.0, 0, 0.0, 0.0, Clear)
    {
      this.time := time;
      tempC := 0.0;
      humidityPct := 0;
      windKmh := 0.0;
      windDirDeg := 0.0;
      condition := Clear;
    }

    /** A snapshot object holding the given values. */
    constructor FromView(v: Snapshot)
      ensures View() == v
    {
      time := v.time;
      tempC := v.tempC;
      humidityPct := v.humidityPct;
      windKmh := v.windKmh;
      windDirDeg := v.windDirDeg;
      condition := v.condition;
    }

    /** MemberwiseClone: a new object with all six fields copied. */
    method Clone() returns (c: WeatherSnapshot)
      ensures fresh(c)
      ensures c.View() == View()
    {
      c := new WeatherSnapshot.FromView(View());
    }
  }

  /** The value form of a weather state: the current snapshot and the history,
      oldest entry first. */
  datatype WeatherView = WeatherView(now: Snapshot, history: seq<Snapshot>)

  /** The current snapshot and the history queue. History entries are copies that
      are never updated after they are enqueued, so they are held as values. */
  class WeatherState {
    var now: WeatherSnapshot
    var history: seq<Snapshot>

    ghost function View(): WeatherView
      reads this, now
    {
      WeatherView(now.View(), history)
    }

    /** A state with a fresh default snapshot stamped `time` and an empty history. */
    constructor (time: int)
      ensures fresh(now)
      ensures View() == WeatherView(Snapshot(time, 0.0, 0, 0.0, 0.0, Clear), [])
    {
      now := new WeatherSnapshot(time);
      history := [];
    }

    /** A state whose current snapshot is `n`, with an empty history. */
    constructor WithNow(n: WeatherSnapshot)
      ensures now == n && history == []
    {
      now := n;
      history := [];
    }

    /** A new state with a copy of the current snapshot and a new queue that the
        entries of this history are enqueued into, one by one, in order. */
    method Clone() returns (s: WeatherState)
      ensures fresh(s) && fresh(s.now)
      ensures s.View() == View()
    {
      var n := now.Clone();
      s := new WeatherState.WithNow(n);
      var i := 0;
      while i < |history|
        invariant 0 <= i <= |history|
        invariant fresh(s) && s.now == n && n.View() == now.View()
        invariant s.history == history[..i]
      {
        s.history := s.history + [history[i]];
        i := i + 1;
      }
      assert history[..i] == history;
    }
  }
}
