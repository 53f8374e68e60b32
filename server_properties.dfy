/** Properties of the update endpoint, stated over its specification `Handle`
    (which `UpdateMetricsHandler.UpdateMetric` is proved to implement). */
module ServerProperties {
  import opened Values
  import opened StrConv
  import opened Storage
  import opened Server

  /** A request that passes the method and Content-Type checks. */
  predicate Admitted(req: Request) {
    req.httpMethod == MethodPost && HasPrefix(req.contentType, ContentTypeTextPlain)
  }

  /** The method is checked first: anything but POST is 405, whatever the
      rest of the request says, and nothing is written. */
  lemma NonPostIs405(config: Config, st: Store, req: Request, parseFloat: FloatParser)
    requires ConfigWellFormed(config)
    requires req.httpMethod != MethodPost
    ensures Handle(config, st, req, parseFloat) == Reply(Status(StatusMethodNotAllowed), st)
  {
  }

  /** A POST whose Content-Type does not start with "text/plain" is 415 and writes nothing. */
  lemma WrongContentTypeIs415(config: Config, st: Store, req: Request, parseFloat: FloatParser)
    requires ConfigWellFormed(config)
    requires req.httpMethod == MethodPost && !HasPrefix(req.contentType, ContentTypeTextPlain)
    ensures Handle(config, st, req, parseFloat) == Reply(Status(StatusUnsupportedMediaType), st)
  {
  }

  /** A Content-Type with parameters after "text/plain" passes the media type check. */
  lemma CharsetContentTypeIsAdmitted(config: Config, st: Store, req: Request, parseFloat: FloatParser)
    requires ConfigWellFormed(config)
    requires req.httpMethod == MethodPost && req.contentType == "text/plain; charset=utf-8"
    ensures Admitted(req)
    ensures Handle(config, st, req, parseFloat).outcome !in {Status(StatusMethodNotAllowed), Status(StatusUnsupportedMediaType)}
  {
  }

  /** A metric type that matches no configured type name, ignoring case, is 400
      and writes nothing. */
  lemma UnknownTypeIs400(config: Config, st: Store, req: Request, parseFloat: FloatParser)
    requires ConfigWellFormed(config) && Admitted(req)
    requires forall k :: k in config ==> !EqualFold(req.metricType, k)
    ensures Handle(config, st, req, parseFloat) == Reply(Status(StatusBadRequest), st)
  {
  }

  /** A known metric type whose value does not parse as that type's
      representation is 400 and writes nothing. */
  lemma UnparsableValueIs400(config: Config, st: Store, req: Request, parseFloat: FloatParser, k: string)
    requires ConfigWellFormed(config) && Admitted(req)
    requires k in config && EqualFold(req.metricType, k)
    requires CheckStringValueType(req.metricValue, config[k], parseFloat) == None
    ensures Handle(config, st, req, parseFloat) == Reply(Status(StatusBadRequest), st)
  {
  }

  /** Under the configured table, any metric type spelled "gauge" in some case
      selects the gauge kind, and likewise for "counter". */
  lemma MainConfigMatches(t: string)
    ensures EqualFold(t, MetricTypeGauge) ==> MatchingType(MainConfig, t) == Some(MetricTypeGauge)
    ensures EqualFold(t, MetricTypeCounter) ==> MatchingType(MainConfig, t) == Some(MetricTypeCounter)
    ensures !EqualFold(t, MetricTypeGauge) && !EqualFold(t, MetricTypeCounter) ==> MatchingType(MainConfig, t) == None
  {
  }

  /** A counter value that is not a decimal `int64` (a syntax error, or a
      number out of range) is 400. */
  lemma BadCounterValueIs400(st: Store, req: Request, parseFloat: FloatParser)
    requires Admitted(req) && EqualFold(req.metricType, MetricTypeCounter)
    requires ParseInt(req.metricValue) == None
    ensures ConfigWellFormed(MainConfig)
    ensures Handle(MainConfig, st, req, parseFloat) == Reply(Status(StatusBadRequest), st)
  {
  }

  /** A gauge value that ParseFloat refuses is 400. */
  lemma BadGaugeValueIs400(st: Store, req: Request, parseFloat: FloatParser)
    requires Admitted(req) && EqualFold(req.metricType, MetricTypeGauge)
    requires parseFloat(req.metricValue) == None
    ensures ConfigWellFormed(MainConfig)
    ensures Handle(MainConfig, st, req, parseFloat) == Reply(Status(StatusBadRequest), st)
  {
  }

  /** A gauge update of an existing gauge answers 200 and overwrites that
      gauge with the parsed value; every other gauge and every counter stays. */
  lemma GaugeUpdateOverwrites(st: Store, req: Request, parseFloat: FloatParser, x: Float64)
    requires Admitted(req) && EqualFold(req.metricType, MetricTypeGauge)
    requires parseFloat(req.metricValue) == Some(x)
    requires req.metricName in st.gauges
    ensures ConfigWellFormed(MainConfig)
    ensures Handle(MainConfig, st, req, parseFloat) == Reply(Status(StatusOK), st.SaveGauge(req.metricName, x))
    ensures Handle(MainConfig, st, req, parseFloat).after.GetGauge(req.metricName) == Found(x)
    ensures forall n :: n != req.metricName ==>
      Handle(MainConfig, st, req, parseFloat).after.GetGauge(n) == st.GetGauge(n)
  {
  }

  /** A gauge update of a name that is not a gauge is 404 and writes nothing:
      an update never creates a gauge. */
  lemma MissingGaugeIs404(st: Store, req: Request, parseFloat: FloatParser)
    requires Admitted(req) && EqualFold(req.metricType, MetricTypeGauge)
    requires parseFloat(req.metricValue).Some?
    requires req.metricName !in st.gauges
    ensures ConfigWellFormed(MainConfig)
    ensures Handle(MainConfig, st, req, parseFloat) == Reply(Status(StatusNotFound), st)
  {
  }

  /** A well-formed counter update never succeeds: its lookup goes to the gauge
      map, so a name that is a gauge panics and any other name is 404 (even one
      present in the counter map). The storage is never written. */
  lemma CounterUpdateNeverSucceeds(st: Store, req: Request, parseFloat: FloatParser)
    requires Admitted(req) && EqualFold(req.metricType, MetricTypeCounter)
    requires ParseInt(req.metricValue).Some?
    ensures ConfigWellFormed(MainConfig)
    ensures Handle(MainConfig, st, req, parseFloat)
         == Reply(if req.metricName in st.gauges then Panic else Status(StatusNotFound), st)
  {
  }

  /** Two gauge updates of the same gauge leave the second value: gauges are
      overwritten, not accumulated. */
  lemma SuccessiveGaugeUpdatesKeepLast(
    st: Store, name: string, v1: string, v2: string, parseFloat: FloatParser, x1: Float64, x2: Float64)
    requires name in st.gauges
    requires parseFloat(v1) == Some(x1) && parseFloat(v2) == Some(x2)
    ensures ConfigWellFormed(MainConfig)
    ensures
      var first := Handle(MainConfig, st, Request(MethodPost, ContentTypeTextPlain, MetricTypeGauge, name, v1), parseFloat);
      var second := Handle(MainConfig, first.after, Request(MethodPost, ContentTypeTextPlain, MetricTypeGauge, name, v2), parseFloat);
      first.outcome == Status(StatusOK) && second.outcome == Status(StatusOK) &&
      second.after.GetGauge(name) == Found(x2) &&
      second.after == st.SaveGauge(name, x2)
  {
    var r1 := Request(MethodPost, ContentTypeTextPlain, MetricTypeGauge, name, v1);
    var r2 := Request(MethodPost, ContentTypeTextPlain, MetricTypeGauge, name, v2);
    assert Admitted(r1) && Admitted(r2);
    GaugeUpdateOverwrites(st, r1, parseFloat, x1);
    var mid := st.SaveGauge(name, x1);
    GaugeUpdateOverwrites(mid, r2, parseFloat, x2);
    assert mid.SaveGauge(name, x2) == st.SaveGauge(name, x2);
  }

  /** Starting from the seeded storage, `POST /update/gauge/g1/2.5` answers 200
      and leaves g1 holding the parsed 2.5. */
  lemma SeededGaugeScenario(parseFloat: FloatParser, x: Float64)
    requires parseFloat("2.5") == Some(x)
    ensures ConfigWellFormed(MainConfig)
    ensures Handle(MainConfig, Seed, Request("POST", "text/plain", "gauge", "g1", "2.5"), parseFloat)
         == Reply(Status(200), Store(map["g1" := x], map[]))
  {
    var req := Request("POST", "text/plain", "gauge", "g1", "2.5");
    assert Admitted(req);
    GaugeUpdateOverwrites(Seed, req, parseFloat, x);
  }

  /** `POST /update/counter/c1/5` on the seeded storage is 404: c1 was never created. */
  lemma NeverCreatedCounterScenario(parseFloat: FloatParser)
    ensures ConfigWellFormed(MainConfig)
    ensures Handle(MainConfig, Seed, Request("POST", "text/plain", "counter", "c1", "5"), parseFloat)
         == Reply(Status(404), Seed)
  {
    var req := Request("POST", "text/plain", "counter", "c1", "5");
    assert Admitted(req);
    assert ParseInt("5") == Some(5);
    CounterUpdateNeverSucceeds(Seed, req, parseFloat);
  }

  /** `POST /update/counter/g1/5` on the seeded storage panics: the counter
      lookup finds the gauge g1 and fails to read it as a counter. */
  lemma CounterNamedLikeGaugeScenario(parseFloat: FloatParser)
    ensures ConfigWellFormed(MainConfig)
    ensures Handle(MainConfig, Seed, Request("POST", "text/plain", "counter", "g1", "5"), parseFloat)
         == Reply(Panic, Seed)
  {
    var req := Request("POST", "text/plain", "counter", "g1", "5");
    assert Admitted(req);
    assert ParseInt("5") == Some(5);
    CounterUpdateNeverSucceeds(Seed, req, parseFloat);
  }

  /** `POST /update/gauge/g1/notanumber` is 400 when ParseFloat refuses the text. */
  lemma NotANumberScenario(parseFloat: FloatParser)
    requires parseFloat("notanumber") == None
    ensures ConfigWellFormed(MainConfig)
    ensures Handle(MainConfig, Seed, Request("POST", "text/plain", "gauge", "g1", "notanumber"), parseFloat)
         == Reply(Status(400), Seed)
  {
  }

  /** A counter value that is a well-formed decimal number outside the `int64`
      range is 400, like a malformed one. */
  lemma OutOfRangeCounterIs400(st: Store, req: Request, parseFloat: FloatParser)
    requires Admitted(req) && EqualFold(req.metricType, MetricTypeCounter)
    requires IsSignedDecimal(req.metricValue)
    requires SignedDecimalValue(req.metricValue) < MinInt64 || MaxInt64 < SignedDecimalValue(req.metricValue)
    ensures ConfigWellFormed(MainConfig)
    ensures Handle(MainConfig, st, req, parseFloat) == Reply(Status(StatusBadRequest), st)
  {
  }

  /** `PUT /update/gauge/g1/3` is 405. */
  lemma PutScenario(parseFloat: FloatParser)
    ensures ConfigWellFormed(MainConfig)
    ensures Handle(MainConfig, Seed, Request("PUT", "text/plain", "gauge", "g1", "3"), parseFloat)
         == Reply(Status(405), Seed)
  {
  }

  /** A counter value formatted by FormatInt always passes the value check. */
  lemma FormattedCounterValueParses(x: Int64, parseFloat: FloatParser)
    ensures CheckStringValueType(FormatInt(x), "int64", parseFloat) == Some(IntValue(x))
  {
  }

  /** With the intended counter lookup, an update of an existing counter
      answers 200 and adds the parsed value with int64 wrapping. */
  lemma IntendedCounterUpdateAccumulates(st: Store, req: Request, parseFloat: FloatParser, i: Int64)
    requires Admitted(req) && EqualFold(req.metricType, MetricTypeCounter)
    requires ParseInt(req.metricValue) == Some(i)
    requires req.metricName in st.counters
    ensures ConfigWellFormed(MainConfig)
    ensures HandleIntended(MainConfig, st, req, parseFloat)
         == Reply(Status(StatusOK), st.SaveCounter(req.metricName, WrapAdd(st.counters[req.metricName], i)))
  {
  }

  /** With the intended counter lookup, updating an existing counter c with v1
      then v2 gives 200 twice and leaves c + v1 + v2 (wrapped to int64):
      counters accumulate. */
  lemma IntendedSuccessiveCounterUpdatesAccumulate(
    st: Store, name: string, v1: string, v2: string, parseFloat: FloatParser, i1: Int64, i2: Int64)
    requires name in st.counters
    requires ParseInt(v1) == Some(i1) && ParseInt(v2) == Some(i2)
    ensures ConfigWellFormed(MainConfig)
    ensures
      var first := HandleIntended(MainConfig, st, Request(MethodPost, ContentTypeTextPlain, MetricTypeCounter, name, v1), parseFloat);
      var second := HandleIntended(MainConfig, first.after, Request(MethodPost, ContentTypeTextPlain, MetricTypeCounter, name, v2), parseFloat);
      first.outcome == Status(StatusOK) && second.outcome == Status(StatusOK) &&
      second.after.GetCounterIntended(name) == Found(WrapAdd(WrapAdd(st.counters[name], i1), i2)) &&
      second.after.gauges == st.gauges
  {
    var r1 := Request(MethodPost, ContentTypeTextPlain, MetricTypeCounter, name, v1);
    var r2 := Request(MethodPost, ContentTypeTextPlain, MetricTypeCounter, name, v2);
    assert Admitted(r1) && Admitted(r2);
    IntendedCounterUpdateAccumulates(st, r1, parseFloat, i1);
    var mid := st.SaveCounter(name, WrapAdd(st.counters[name], i1));
    IntendedCounterUpdateAccumulates(mid, r2, parseFloat, i2);
  }

  /** The discrepancy on one input: from a storage holding the counter c = 1,
      `POST /update/counter/c/5` is 404 as written, where the intended lookup
      answers 200 and leaves c = 6. */
  lemma CounterLookupCounterexample(parseFloat: FloatParser)
    ensures ConfigWellFormed(MainConfig)
    ensures
      var st := Store(map[], map["c" := 1]);
      var req := Request("POST", "text/plain", "counter", "c", "5");
      Handle(MainConfig, st, req, parseFloat) == Reply(Status(404), st) &&
      HandleIntended(MainConfig, st, req, parseFloat) == Reply(Status(200), Store(map[], map["c" := 6]))
  {
    var st := Store(map[], map["c" := 1]);
    var req := Request("POST", "text/plain", "counter", "c", "5");
    assert Admitted(req);
    assert ParseInt("5") == Some(5);
    CounterUpdateNeverSucceeds(st, req, parseFloat);
    IntendedCounterUpdateAccumulates(st, req, parseFloat, 5);
  }
}
