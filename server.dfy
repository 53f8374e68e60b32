/** The metrics update endpoint: `POST /update/{metricType}/{metricName}/{metricValue}`.

    The router's parameter hand-off becomes the explicit `Request` record, the
    response writer becomes the returned `Outcome`, and `strconv.ParseFloat`,
    whose float semantics are not modelled, is passed in as a partial function. */
module Server {
  import opened Values
  import opened StrConv
  import opened Storage

  const MethodPost: string := "POST"
  const ContentTypeTextPlain: string := "text/plain"

  const StatusOK: int := 200
  const StatusBadRequest: int := 400
  const StatusNotFound: int := 404
  const StatusMethodNotAllowed: int := 405
  const StatusUnsupportedMediaType: int := 415
  const StatusInternalServerError: int := 500

  /** One update request: the HTTP method, the Content-Type header ("" when
      absent) and the three path parameters bound by the router. */
  datatype Request = Request(
    httpMethod: string,
    contentType: string,
    metricType: string,
    metricName: string,
    metricValue: string)

  /** What the handler does with the response: write a status code, or panic
      (net/http then drops the connection without a status). */
  datatype Outcome = Status(code: int) | Panic

  /** The outcome of one request together with the storage contents after it. */
  datatype Reply = Reply(outcome: Outcome, after: Store)

  /** A parsed metric value, tagged with the Go type it was parsed as. */
  datatype Parsed = IntValue(i: Int64) | FloatValue(f: Float64)

  /** `strconv.ParseFloat(v, 64)`, `None` on error. */
  type FloatParser = string -> Option<Float64>

  /** Metric type name -> name of its value representation. */
  type Config = map<string, string>

  /** The table `main` configures. */
  const MainConfig: Config := map[MetricTypeGauge := "float64", MetricTypeCounter := "int64"]

  /** The storage `main` serves from: one gauge `g1` = 1. */
  const Seed: Store := Store(map["g1" := One], map[])

  /** `strings.HasPrefix`. */
  predicate HasPrefix(s: string, prefix: string) {
    |prefix| <= |s| && s[..|prefix|] == prefix
  }

  function LowerAscii(c: char): char {
    if 'A' <= c <= 'Z' then (c as int + 32) as char else c
  }

  /** `strings.EqualFold`, restricted to ASCII case folding. */
  predicate EqualFold(a: string, b: string) {
    |a| == |b| && forall i :: 0 <= i < |a| ==> LowerAscii(a[i]) == LowerAscii(b[i])
  }

  /** No two configured type names differ only in case, so at most one of them
      matches a request, whatever order the map is iterated in. */
  ghost predicate ConfigWellFormed(config: Config) {
    forall a, b :: a in config && b in config && EqualFold(a, b) ==> a == b
  }

  lemma MainConfigWellFormed()
    ensures ConfigWellFormed(MainConfig)
  {
  }

  /** `checkStringValueType`: parse `v` as the representation named `t`. */
  function CheckStringValueType(v: string, t: string, parseFloat: FloatParser): (r: Option<Parsed>)
    ensures r.Some? ==> (t == "int64" && r.value.IntValue?) || (t == "float64" && r.value.FloatValue?)
    ensures t == "int64" ==> (r.Some? <==> ParseInt(v).Some?) && (r.Some? ==> r.value.i == ParseInt(v).value)
    ensures t == "float64" ==> (r.Some? <==> parseFloat(v).Some?) && (r.Some? ==> r.value.f == parseFloat(v).value)
  {
    if t == "int64" then
      match ParseInt(v)
      case Some(i) => Some(IntValue(i))
      case None => None
    else if t == "float64" then
      match parseFloat(v)
      case Some(f) => Some(FloatValue(f))
      case None => None
    else None
  }

  /** The configured type name that `t` matches case-insensitively, if any. */
  ghost function MatchingType(config: Config, t: string): (r: Option<string>)
    requires ConfigWellFormed(config)
    ensures r.Some? ==> r.value in config && EqualFold(t, r.value)
    ensures forall k :: k in config && EqualFold(t, k) ==> r == Some(k)
  {
    if exists k :: k in config && EqualFold(t, k) then
      var k :| k in config && EqualFold(t, k);
      Some(k)
    else None
  }

  /** Which lookup the counter branch uses: `GetCounterMetricValue` as written
      (the gauge map), or the counter-map lookup it evidently intends. */
  datatype CounterRead = AsWritten | Intended

  /** The update endpoint as a state machine over one request: the checks in
      their fixed order, the first failing one deciding the outcome, and the
      storage write only at the end. */
  ghost function Pipeline(config: Config, st: Store, req: Request, parseFloat: FloatParser, read: CounterRead): (r: Reply)
    requires ConfigWellFormed(config)
    ensures r.outcome != Status(StatusInternalServerError)
    ensures r.outcome != Status(StatusOK) ==> r.after == st
    ensures r.after.gauges.Keys == st.gauges.Keys && r.after.counters.Keys == st.counters.Keys
  {
    if req.httpMethod != MethodPost then Reply(Status(StatusMethodNotAllowed), st)
    else if !HasPrefix(req.contentType, ContentTypeTextPlain) then Reply(Status(StatusUnsupportedMediaType), st)
    else
      match MatchingType(config, req.metricType)
      case None => Reply(Status(StatusBadRequest), st)
      case Some(mtn) =>
        match CheckStringValueType(req.metricValue, config[mtn], parseFloat)
        case None => Reply(Status(StatusBadRequest), st)
        case Some(value) =>
          if mtn == MetricTypeCounter then
            var lookup := if read == AsWritten then st.GetCounter(req.metricName) else st.GetCounterIntended(req.metricName);
            match lookup
            case NotFound => Reply(Status(StatusNotFound), st)
            case Panicked => Reply(Panic, st)
            case Found(oldValue) =>
              match value
              case IntValue(i) => Reply(Status(StatusOK), st.SaveCounter(req.metricName, WrapAdd(oldValue, i)))
              case FloatValue(_) => Reply(Panic, st)
          else if mtn == MetricTypeGauge then
            match st.GetGauge(req.metricName)
            case NotFound => Reply(Status(StatusNotFound), st)
            case Panicked => Reply(Panic, st)
            case Found(_) =>
              match value
              case FloatValue(f) => Reply(Status(StatusOK), st.SaveGauge(req.metricName, f))
              case IntValue(_) => Reply(Panic, st)
          else Reply(Status(StatusNotFound), st)
  }

  /** The endpoint as written, over `MemStorage`: never 500, no write unless
      200, no name created, and the counter map never written. */
  ghost function Handle(config: Config, st: Store, req: Request, parseFloat: FloatParser): (r: Reply)
    requires ConfigWellFormed(config)
    ensures r.outcome != Status(StatusInternalServerError)
    ensures r.outcome != Status(StatusOK) ==> r.after == st
    ensures r.after.gauges.Keys == st.gauges.Keys && r.after.counters == st.counters
  {
    Pipeline(config, st, req, parseFloat, AsWritten)
  }

  /** The endpoint as evidently intended: counters looked up in the counter map. */
  ghost function HandleIntended(config: Config, st: Store, req: Request, parseFloat: FloatParser): (r: Reply)
    requires ConfigWellFormed(config)
    ensures r.outcome != Status(StatusInternalServerError)
    ensures r.outcome != Status(StatusOK) ==> r.after == st
    ensures r.after.gauges.Keys == st.gauges.Keys && r.after.counters.Keys == st.counters.Keys
  {
    Pipeline(config, st, req, parseFloat, Intended)
  }

  class UpdateMetricsHandler {
    const config: Config
    const storage: MemStorage

    constructor (config: Config, storage: MemStorage)
      ensures this.config == config && this.storage == storage
    {
      this.config := config;
      this.storage := storage;
    }

    /** `UpdateMetric`: validate the request, then update an existing metric. */
    method UpdateMetric(req: Request, parseFloat: FloatParser) returns (out: Outcome)
      requires ConfigWellFormed(config)
      modifies storage
      ensures Reply(out, storage.Snapshot()) == Handle(config, old(storage.Snapshot()), req, parseFloat)
    {
      if req.httpMethod != MethodPost {
        return Status(StatusMethodNotAllowed);
      }
      if !HasPrefix(req.contentType, ContentTypeTextPlain) {
        return Status(StatusUnsupportedMediaType);
      }

      var metricType, metricName, metricValue := req.metricType, req.metricName, req.metricValue;
      var metricTypeExist, metricTypeSame, metricNameExist := false, false, false;
      var saveError: Option<string> := None;

      // Go visits the map's keys in an unspecified order: pick any unvisited one.
      var unvisited := config.Keys;
      while unvisited != {}
        invariant unvisited <= config.Keys
        invariant forall k :: k in config.Keys - unvisited ==> !EqualFold(metricType, k)
        invariant !metricTypeExist
        invariant storage.Snapshot() == old(storage.Snapshot())
        decreases unvisited
      {
        var mtn :| mtn in unvisited;
        unvisited := unvisited - {mtn};
        if EqualFold(metricType, mtn) {
          metricTypeExist := true;
          var value := CheckStringValueType(metricValue, config[mtn], parseFloat);
          if value.None? {
            break;
          }
          metricTypeSame := true;
          if mtn == MetricTypeCounter {
            var oldValue := storage.GetCounterMetricValue(metricName);
            match oldValue {
              case Panicked =>
                return Panic;
              case NotFound =>
              case Found(_) =>
                // GetCounterMetricValue never finds a counter, so the
                // accumulating save (oldValue + value) is never reached.
                assert false;
            }
          } else if mtn == MetricTypeGauge {
            var oldValue := storage.GetGaugeMetricValue(metricName);
            match oldValue {
              case Panicked =>
                return Panic;
              case NotFound =>
              case Found(_) =>
                metricNameExist := true;
                match value.value {
                  case FloatValue(f) =>
                    saveError := storage.SaveGaugeMetricValue(metricName, f);
                  case IntValue(_) =>
                    return Panic;
                }
            }
          }
          break;
        }
      }

      if !metricTypeExist {
        return Status(StatusBadRequest);
      }
      if !metricTypeSame {
        return Status(StatusBadRequest);
      }
      if !metricNameExist {
        return Status(StatusNotFound);
      }
      if saveError.Some? {
        return Status(StatusInternalServerError);
      }
      return Status(StatusOK);
    }
  }

  /** What `main` builds before serving: the configured type table and a new
      storage seeded with the gauge `g1` = 1. */
  method NewServer() returns (h: UpdateMetricsHandler)
    ensures fresh(h) && fresh(h.storage)
    ensures h.config == MainConfig && ConfigWellFormed(h.config)
    ensures h.storage.Snapshot() == Seed
  {
    var memStorage := new MemStorage.NewMemStorage();
    var _ := memStorage.SaveGaugeMetricValue("g1", One);
    h := new UpdateMetricsHandler(MainConfig, memStorage);
    MainConfigWellFormed();
  }
}
