/** The in-memory metric storage (`MemStorage`).

    The Go type keeps one untyped name -> value map per kind and casts a value
    back to its kind on every read. Here the two maps are typed, and what a read
    does is spelled out by the `Lookup` outcome, including the one read that
    cannot succeed: `GetCounterMetricValue` looks the name up in the GAUGE map
    and then casts the gauge it finds to a counter, which panics. */
module Storage {
  import opened Values

  const MetricTypeGauge: string := "gauge"
  const MetricTypeCounter: string := "counter"

  /** What a getter does: return the stored value, return a not-found error,
      or panic on a failed type assertion. */
  datatype Lookup<T> = Found(value: T) | NotFound | Panicked

  /** The contents of a `MemStorage`, as a value. */
  datatype Store = Store(gauges: map<string, Gauge>, counters: map<string, Counter>)
  {
    /** `GetGaugeMetricValue`: the gauge stored under `name`, else not found. */
    function GetGauge(name: string): (r: Lookup<Gauge>)
      ensures r.Found? <==> name in gauges
      ensures r.Found? ==> r.value == gauges[name]
      ensures !r.Panicked?
    {
      if name in gauges then Found(gauges[name]) else NotFound
    }

    /** `GetCounterMetricValue` as written: the lookup goes to the gauge map,
        and a gauge found there fails the assertion that it is a counter. */
    function GetCounter(name: string): (r: Lookup<Counter>)
      ensures !r.Found?
      ensures r.Panicked? <==> name in gauges
    {
      if name in gauges then Panicked else NotFound
    }

    /** What `GetCounterMetricValue` evidently means to do: look the name up
        in the counter map. Not used by `MemStorage`; the endpoint's intended
        behaviour is stated with it. */
    function GetCounterIntended(name: string): (r: Lookup<Counter>)
      ensures r.Found? <==> name in counters
      ensures r.Found? ==> r.value == counters[name]
      ensures !r.Panicked?
    {
      if name in counters then Found(counters[name]) else NotFound
    }

    /** `SaveGaugeMetricValue`: store `value` under `name` in the gauge map. */
    function SaveGauge(name: string, value: Gauge): (r: Store)
      ensures r.GetGauge(name) == Found(value)
      ensures forall n :: n != name ==> r.GetGauge(n) == GetGauge(n)
      ensures r.gauges.Keys == gauges.Keys + {name}
      ensures r.counters == counters
    {
      Store(gauges[name := value], counters)
    }

    /** `SaveCounterMetricValue`: store `value` under `name` in the counter map. */
    function SaveCounter(name: string, value: Counter): (r: Store)
      ensures name in r.counters && r.counters[name] == value
      ensures forall n :: n != name && n in counters ==> n in r.counters && r.counters[n] == counters[n]
      ensures r.counters.Keys == counters.Keys + {name}
      ensures r.gauges == gauges
    {
      Store(gauges, counters[name := value])
    }
  }

  /** A counter written by `SaveCounterMetricValue` is never read back by
      `GetCounterMetricValue`: the read finds it neither before nor after. */
  lemma SavedCounterIsUnreadable(s: Store, name: string, value: Counter)
    ensures s.SaveCounter(name, value).GetCounter(name) == s.GetCounter(name)
    ensures s.SaveCounter(name, value).GetCounter(name) != Found(value)
  {
  }

  /** With the intended lookup, a saved counter reads back as saved, and the
      save leaves every other counter's reading alone. */
  lemma SavedCounterReadsBackIntended(s: Store, name: string, value: Counter)
    ensures s.SaveCounter(name, value).GetCounterIntended(name) == Found(value)
    ensures forall n :: n != name ==> s.SaveCounter(name, value).GetCounterIntended(n) == s.GetCounterIntended(n)
  {
  }

  class MemStorage {
    var gauges: map<string, Gauge>
    var counters: map<string, Counter>

    function Snapshot(): Store
      reads this
    {
      Store(gauges, counters)
    }

    /** `NewMemStorage`: both maps empty. */
    constructor NewMemStorage()
      ensures Snapshot() == Store(map[], map[])
    {
      gauges := map[];
      counters := map[];
    }

    method SaveGaugeMetricValue(name: string, value: Gauge) returns (err: Option<string>)
      modifies this
      ensures err == None
      ensures Snapshot() == old(Snapshot()).SaveGauge(name, value)
    {
      gauges := gauges[name := value];
      err := None;
    }

    method SaveCounterMetricValue(name: string, value: Counter) returns (err: Option<string>)
      modifies this
      ensures err == None
      ensures Snapshot() == old(Snapshot()).SaveCounter(name, value)
    {
      counters := counters[name := value];
      err := None;
    }

    method GetGaugeMetricValue(name: string) returns (r: Lookup<Gauge>)
      ensures r == Snapshot().GetGauge(name)
    {
      if name in gauges {
        r := Found(gauges[name]);
      } else {
        r := NotFound;
      }
    }

    method GetCounterMetricValue(name: string) returns (r: Lookup<Counter>)
      ensures r == Snapshot().GetCounter(name)
    {
      if name in gauges {
        // the stored value is a Gauge; asserting it to be a Counter panics
        r := Panicked;
      } else {
        r := NotFound;
      }
    }
  }
}
