# Metrics update endpoint, modelled in Dafny

A model of the update path of a small metrics server. Clients send
`POST /update/{metricType}/{metricName}/{metricValue}` with a `text/plain`
Content-Type; the handler checks the method, the media type, the metric type
(case-insensitively, against a table `gauge -> float64`, `counter -> int64`),
parses the value as that type's representation, requires the metric name to
exist already, and then writes the in-memory storage: a gauge is overwritten,
a counter is meant to be accumulated with 64-bit wrapping addition.

Files:

- `values.dfy` (module `Values`): `Int64` with Go's wrapping `+`, `Float64` kept
  as an uninterpreted IEEE 754 bit pattern, `Option`.
- `strconv.dfy` (module `StrConv`): `strconv.ParseInt(s, 10, 64)` and, as its
  inverse, `strconv.FormatInt(x, 10)`, with the round trip proved.
- `storage.dfy` (module `Storage`): `MemStorage` as a class with a gauge map and a
  counter map that its save methods reassign, and `Store`, the value of those two
  maps, whose functions specify the class's methods.
- `server.dfy` (module `Server`): the request record, the outcome, the type table
  and the seeded storage of `main`, `checkStringValueType`, the specification
  `Handle` of the endpoint (with `HandleIntended`, its variant with the intended
  counter lookup), and `UpdateMetricsHandler.UpdateMetric`, which loops over
  the type table as the Go code does and is proved to implement `Handle`.
- `server_properties.dfy` (module `ServerProperties`): the endpoint's properties,
  stated over `Handle`.

The storage bug is modelled as written. `GetCounterMetricValue` looks the name up in
the gauge map and then asserts the stored gauge to be a counter. A hit therefore
panics, and a miss is a not-found error. It never returns a counter. Consequences proved here:

- a counter saved by `SaveCounterMetricValue` is never read back;
- a well-formed counter update never answers 200: it is 404, or a panic when the name is a gauge (a malformed counter value is 400, as for any type);
- no counter is ever written through the endpoint;
- accumulation (`c` updated with 1 then 2 holds 3) never happens.

Since saves never fail, the handler's 500 branch is unreachable with this storage.

The handler model (`Handle`, `UpdateMetric`) keeps the getter as written. The
evidently intended behaviour is stated beside it: `HandleIntended` is the same
pipeline with a counter-map lookup, and under it counters accumulate (see
"## Findings").

## Model

| member | source | states |
|---|---|---|
| `Values.WrapAdd` | cmd/server/main.go:78 | the int64 sum is congruent to the mathematical sum modulo 2^64 and lies in the int64 range; it equals the sum when no overflow occurs, and overflow flips the sign |
| `StrConv.ParseInt` | cmd/server/main.go:136 | success only for an optional sign followed by one or more decimal digits, with the value it denotes; every such text whose value is within int64 succeeds |
| `StrConv.NatDigits` | cmd/server/main.go:136 | inverse partner of the `ParseInt` call (the digit part of `strconv.FormatInt`, which the source never calls): decimal digits without leading zeros that spell exactly the given number |
| `StrConv.FormatInt` | cmd/server/main.go:136 | inverse partner of the `ParseInt` call (`strconv.FormatInt`, which the source never calls): the text is in the grammar ParseInt accepts and denotes the given int64 |
| `StrConv.ParseFormatRoundTrip` | cmd/server/main.go:135-140 | parsing the formatted text of any int64 gives that int64 back |
| `Storage.Store.GetGauge` | internal/app/storage/memStorage.go:46-52 | found iff the name is in the gauge map, with the stored value; otherwise a not-found error; never panics |
| `Storage.Store.GetCounter` | internal/app/storage/memStorage.go:54-60 | never finds a counter; panics iff the name is in the gauge map (a gauge asserted to be a counter), not found otherwise |
| `Storage.Store.SaveGauge` | internal/app/storage/memStorage.go:28-35 | reading the name back gives the saved value; every other gauge reads as before; no gauge name disappears; counters unchanged |
| `Storage.Store.SaveCounter` | internal/app/storage/memStorage.go:37-44 | the counter holds the value; other counters keep theirs; no counter name disappears; gauges unchanged |
| `Storage.Store.GetCounterIntended` | internal/app/storage/memStorage.go:54-60 | the evidently intended counter read: found iff the name is in the counter map, with the stored value; never panics |
| `Storage.SavedCounterIsUnreadable` | internal/app/storage/memStorage.go:37-60 | after saving a counter, GetCounterMetricValue answers as before the save and never returns the saved value |
| `Storage.SavedCounterReadsBackIntended` | internal/app/storage/memStorage.go:37-60 | with the intended read, a saved counter reads back as saved and other counters read as before |
| `Storage.MemStorage.NewMemStorage` | internal/app/storage/memStorage.go:17-26 | both maps start empty |
| `Storage.MemStorage.SaveGaugeMetricValue` | internal/app/storage/memStorage.go:28-35 | returns no error; the new contents are the old contents with the gauge saved |
| `Storage.MemStorage.SaveCounterMetricValue` | internal/app/storage/memStorage.go:37-44 | returns no error; the new contents are the old contents with the counter saved |
| `Storage.MemStorage.GetGaugeMetricValue` | internal/app/storage/memStorage.go:46-52 | answers as `Store.GetGauge` on the current maps and changes nothing |
| `Storage.MemStorage.GetCounterMetricValue` | internal/app/storage/memStorage.go:54-60 | answers as `Store.GetCounter` on the current maps (gauge-map lookup) and changes nothing |
| `Server.MainConfigWellFormed` | cmd/server/main.go:154-159 | no two names of the configured type table are equal ignoring case |
| `Server.CheckStringValueType` | cmd/server/main.go:130-151 | succeeds only for representations "int64" and "float64"; for "int64" exactly when ParseInt does, with an int64 value; for "float64" exactly when ParseFloat does, with a float64 value |
| `Server.MatchingType` | cmd/server/main.go:55-56 | the configured type name equal to the request's type ignoring case, and it is the only one |
| `Server.Pipeline` | cmd/server/main.go:35-127 | the checks in order, first failure decides, with either counter read; never 500; any outcome but 200 leaves the storage unchanged; no name is added or removed |
| `Server.Handle` | cmd/server/main.go:35-127 | the endpoint as written: never 500; any outcome but 200 leaves the storage unchanged; no gauge name is added or removed and the counter map is never written |
| `Server.HandleIntended` | cmd/server/main.go:35-127 | the endpoint with the intended counter read: never 500; any outcome but 200 leaves the storage unchanged; no name is added or removed |
| `Server.UpdateMetricsHandler.constructor` | cmd/server/main.go:162-165 | the handler holds the given type table and storage |
| `Server.UpdateMetricsHandler.UpdateMetric` | cmd/server/main.go:31-128 | the returned outcome and the new storage contents are those `Handle` gives for the old contents |
| `Server.NewServer` | cmd/server/main.go:153-165 | a fresh handler with the configured table, over a fresh storage holding only the gauge g1 = 1 |
| `ServerProperties.NonPostIs405` | cmd/server/main.go:35-38 | any method but POST gives 405 and an unchanged storage, whatever the other inputs |
| `ServerProperties.WrongContentTypeIs415` | cmd/server/main.go:40-43 | a POST whose Content-Type does not start with text/plain gives 415 and an unchanged storage |
| `ServerProperties.CharsetContentTypeIsAdmitted` | cmd/server/main.go:40-43 | "text/plain; charset=utf-8" passes the media type check |
| `ServerProperties.UnknownTypeIs400` | cmd/server/main.go:55-56 | a type matching no configured name ignoring case gives 400 and an unchanged storage |
| `ServerProperties.UnparsableValueIs400` | cmd/server/main.go:59-63 | a known type whose value fails to parse gives 400 and an unchanged storage |
| `ServerProperties.MainConfigMatches` | cmd/server/main.go:55-67 | under the configured table any casing of "gauge" selects gauge, of "counter" selects counter, and nothing else matches |
| `ServerProperties.BadCounterValueIs400` | cmd/server/main.go:109-113 | a counter value ParseInt refuses gives 400 and an unchanged storage |
| `ServerProperties.OutOfRangeCounterIs400` | cmd/server/main.go:135-140 | a well-formed counter value outside int64 gives 400 |
| `ServerProperties.BadGaugeValueIs400` | cmd/server/main.go:142-147 | a gauge value ParseFloat refuses gives 400 and an unchanged storage |
| `ServerProperties.GaugeUpdateOverwrites` | cmd/server/main.go:83-96 | an update of an existing gauge gives 200, sets it to the parsed value and leaves every other gauge and all counters unchanged |
| `ServerProperties.MissingGaugeIs404` | cmd/server/main.go:84-91 | an update of a name that is not a gauge gives 404 and writes nothing |
| `ServerProperties.CounterUpdateNeverSucceeds` | cmd/server/main.go:68-79 | a well-formed counter update is a panic when the name is a gauge, 404 otherwise (even for a name in the counter map), and never writes |
| `ServerProperties.SuccessiveGaugeUpdatesKeepLast` | cmd/server/main.go:83-96 | two updates of one gauge both give 200 and leave the second value |
| `ServerProperties.SeededGaugeScenario` | cmd/server/main.go:161 | from the seeded storage, updating g1 to 2.5 gives 200 and g1 holds the parsed 2.5 |
| `ServerProperties.NeverCreatedCounterScenario` | cmd/server/main.go:115-119 | from the seeded storage, updating counter c1 gives 404 |
| `ServerProperties.CounterNamedLikeGaugeScenario` | internal/app/storage/memStorage.go:55-56 | from the seeded storage, updating counter g1 panics |
| `ServerProperties.NotANumberScenario` | cmd/server/main.go:109-113 | from the seeded storage, a gauge value ParseFloat refuses gives 400 |
| `ServerProperties.PutScenario` | cmd/server/main.go:35-38 | a PUT to the seeded server gives 405 |
| `ServerProperties.FormattedCounterValueParses` | cmd/server/main.go:135-140 | the decimal text of any int64 passes the int64 value check with that value |
| `ServerProperties.IntendedCounterUpdateAccumulates` | cmd/server/main.go:68-81 | with the intended counter read, an update of an existing counter gives 200 and stores old + parsed value with int64 wrapping |
| `ServerProperties.IntendedSuccessiveCounterUpdatesAccumulate` | cmd/server/main.go:68-81 | with the intended counter read, updates with v1 then v2 both give 200 and leave (c + v1) + v2, wrapped, with gauges unchanged |
| `ServerProperties.CounterLookupCounterexample` | internal/app/storage/memStorage.go:55 | from a storage holding counter c = 1, updating c by 5 is 404 as written but 200 with c = 6 as intended |

## Left out

- HTTP plumbing: the listener, `http.ServeMux` and `ListenAndServe` (cmd/server/main.go:167-181) are I/O. The response writer is the returned `Outcome`.
- The router (the `middlewares` package) is not part of this model. The path parameters it binds reach the handler as the explicit `Request` record, not through the request context.
- Console logging of rejections (cmd/server/main.go:104, 110, 116, 122) is side-channel output and does not affect the outcome.
- `strconv.ParseFloat` and float64 values: the parser is a parameter (a partial function from text to `Float64`), and gauges are bit patterns that are only stored.
- `Server.EqualFold`: ASCII letters only. Go's `strings.EqualFold` also folds non-ASCII letters ("É" and "é", Greek, Cyrillic) and maps `k` and `s` to the Kelvin sign and the long s. So `Handle`, `MatchingType` and `ConfigWellFormed` differ from Go on a table with non-ASCII names. `MainConfig`'s names are ASCII and contain no `k` or `s`, so under it the two agree.
- `Server.UpdateMetricsHandler.UpdateMetric`: the accumulating counter save (cmd/server/main.go:75-79) follows a successful counter lookup, which never happens. The method marks that branch as proved unreachable. `Server.Handle` keeps the branch, with `Values.WrapAdd`.
- `Server.UpdateMetricsHandler.UpdateMetric`: requires a type table without two names equal ignoring case. Otherwise Go's random map order would make the outcome depend on the order. The table `main` builds meets this.
- A handler panic is an `Outcome` of its own. How net/http recovers from it (logging, closing the connection) is not modelled.
- The text of the getters' not-found errors is not kept. The handler only tests whether an error occurred.
- The `Storage` interface (internal/app/storage/storage.go) has only one implementation. The handler holds a `MemStorage` directly.
- Concurrency: the maps are unsynchronized in Go. The model is sequential.

## Findings

| source | as written | input that shows it | evidently intended | confidence | as-written member | corrected member |
|---|---|---|---|---|---|---|
| internal/app/storage/memStorage.go:55 | `GetCounterMetricValue` looks the name up in the gauge map, then asserts the value to be a counter, so it never returns a counter and the counter update at cmd/server/main.go:69-79 never runs | storage holding counter c = 1; `POST /update/counter/c/5` with text/plain gives 404 (and `POST /update/counter/g1/5` on the seeded storage panics) | look the name up in the counter map, so that an update of an existing counter gives 200 and adds the value with int64 wrapping | high, not executed | `ServerProperties.CounterUpdateNeverSucceeds` | `ServerProperties.IntendedSuccessiveCounterUpdatesAccumulate` |
