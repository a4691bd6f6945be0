# owm-exporter, modelled in Dafny

owm-exporter is a small Prometheus exporter. At startup it reads one city's configuration from
environment variables. It then fetches that city's current weather from the OpenWeatherMap API,
once at startup and once per interval. Each snapshot is copied into 17 labelled gauges:
visibility is converted from metres to kilometres, wind from m/s to knots, and the two wind
speeds also to Beaufort force. The gauges are registered with the Prometheus registry only
after the first snapshot arrives, so a scrape never sees the placeholder zeros of a new
metric set. (A snapshot decoded from an HTTP error reply can still be all zeros, because
the response status is never checked.)

The project models that core:

- `wrappers.dfy`: the `Option` and `Result` datatypes.
- `decimal.dfy` (module `Decimal`): Go's `strconv.Atoi` and `strconv.Itoa`/`%d` on decimal
  text, with the int64 range.
- `owm.dfy` (module `Owm`): the request URL builder and the snapshot records of
  `owm/client.go`. `GetOwmData` appears only as the URL it requests.
- `prometheus.dfy` (module `Prometheus`): the registry, reduced to a multiset of gauge
  identities (name plus the `city_id` and `city_name` labels). A multiplicity above one is the
  state in which `prometheus.MustRegister` would have panicked. Counts over sequences are
  Dafny multisets.
- `metrics.dfy` (module `Metrics`), covering `metrics/metrics.go`:
  - `WeatherMetrics` is a class whose 17 gauge values and registration flag are fields that
    `Update` and `Register` change in place.
  - `knotsToBft` is a loop over the Beaufort steps.
  - The gauge values are related to the snapshot by a pure reference function, `GaugesOf`,
    and its inverse, `Snapshot`.
- `cmd.dfy` (module `Cmd`), covering `cmd/main.go`:
  - The environment checks are a pure function from the environment map to a result.
  - The city record is a class.
  - `updateMetrics` and the cycles of `RecordMetrics` are methods that take the network
    outcome as a parameter: a function from the requested URL to either a snapshot or a fetch
    error.

Go's `float64` is modelled as `real`, and Go's `int` (64-bit) as `int` with the int64 range
stated where parsing and formatting depend on it. `time.Duration(m) * time.Minute` wraps
modulo 2^64 as Go's int64 multiplication does.

Points the model makes explicit:

- A wind of 5 m/s is 9.71922 knots, and 7 ≤ 9.71922 < 11, so its published force is 3
  (`Metrics.SampleSnapshot`).
- The second check of `NewCityMetricsFromEnv` (cmd/main.go:33-36) tests the city *id* text,
  where the name was evidently meant. The city id text is known to be non-empty there, so
  this check never fails, and an unset or empty `METEO_CITY_NAME` is accepted and becomes an
  empty `city_name` label. The model reproduces the guard as written
  (`Cmd.LoadSettings`, `Cmd.LoadSettingsErrors`, `Cmd.NoNameNegativeIntervalExample`).
- The interval is not range-checked: every int64 number of minutes is accepted by the
  configuration. `time.NewTicker` in `RecordMetrics` then panics exactly when the wrapped
  duration is not positive, which the model states as a startup outcome (`Cmd.StartAndRun`).
  That is the case for 0 and for -1 to -153722867 minutes. Past those bounds the product
  wraps, so 153722868 minutes give a negative duration and panic, while -153722868 minutes
  give a positive one and run (`Cmd.ZeroIntervalPanics`, `Cmd.TickerIntervalCases`).

## Model

| member | source | states |
|---|---|---|
| Decimal.Atoi | cmd/main.go:28-31 | a parsed value lies in the int64 range; the empty text is rejected; an unsigned text that parses consists only of digits |
| Decimal.DigitsRoundTrip | cmd/main.go:28-31 | the decimal digits of a natural number parse back, digit by digit, to that number |
| Decimal.DigitsAreDigits | metrics/metrics.go:33 | the decimal representation of a natural number is a non-empty string of digits |
| Decimal.FormatInt | metrics/metrics.go:33 | `Itoa`/`%d` text is non-empty, starts with `-` exactly for negative numbers, and is otherwise made of digits |
| Decimal.FormatIntRoundTrip | metrics/metrics.go:33 | `Atoi` of the `Itoa` text of n gives back n exactly when n is an int64, and fails otherwise |
| Decimal.AtoiExamples | cmd/main.go:28-31 | a lone sign, a trailing letter and a leading blank are rejected; an explicit plus sign and leading zeros are accepted; a minus sign negates |
| Owm.BuildUrl | owm/client.go:10-12 | the URL starts with the OpenWeatherMap weather endpoint and its `id=` parameter, and ends with the language parameter followed by `&units=metric` |
| Owm.RequestUrl | owm/client.go:55 | the string `GetOwmData` hands to `http.Get` is the weather endpoint's URL and always ends in `&lang=de&units=metric` |
| Owm.CityIdRoundTrip | owm/client.go:10-12 | the `id` query parameter of the built URL reads back as the int64 city id |
| Owm.TokenRoundTrip | owm/client.go:10-12 | the `appid` query parameter, read by splitting at `&`, gives back the token whenever the token contains no `&` |
| Owm.TakeUntil | owm/client.go:10-12 | the query-parameter reader stops at the first separator, or takes the whole text |
| Owm.TakeUntilStopsAt | owm/client.go:10-12 | reading a parameter value up to `&` from `a + "&" + b` gives exactly `a` if `a` has no `&` |
| Owm.BuildUrlExample | owm/client_test.go:5-11 | city 123, token `foobar`, language `de` give `http://api.openweathermap.org/data/2.5/weather?id=123&appid=foobar&lang=de&units=metric` |
| Prometheus.Registry.MustRegister | metrics/metrics.go:141-159 | registering adds every given gauge, one occurrence each, and removes nothing |
| Prometheus.DistinctCounts | metrics/metrics.go:141-159 | in a list of distinct gauges each one occurs exactly once |
| Prometheus.CountsDistinct | metrics/metrics.go:141-159 | a list in which nothing occurs twice is duplicate-free |
| Prometheus.RegisterKeepsNoDuplicates | metrics/metrics.go:141-159 | one registration keeps the registry free of duplicates iff the new gauges are distinct and none was registered before |
| Metrics.FirstStepAbove | metrics/metrics.go:130-137 | the scan from a position returns a step index between that position and the number of steps |
| Metrics.FirstStepAboveSpec | metrics/metrics.go:130-137 | the scan stops at the first step above the speed, or after the last step if none is |
| Metrics.Beaufort | metrics/metrics.go:130-137 | the force is at most 12 |
| Metrics.BeaufortIsFirstStepAbove | metrics/metrics.go:126-137 | the force is the index of the first threshold above the speed, or 12 when no threshold is |
| Metrics.KnotsToBft | metrics/metrics.go:130-137 | the loop with its early return computes exactly the Beaufort force |
| Metrics.StepsAscending | metrics/metrics.go:126-128 | the Beaufort thresholds strictly increase |
| Metrics.BeaufortMonotone | metrics/metrics.go:126-137 | a stronger wind never gets a lower force |
| Metrics.BeaufortBounds | metrics/metrics.go:126-137 | speeds below 1 kn are force 0; speeds of 64 kn and more are force 12 |
| Metrics.BeaufortBand | metrics/metrics.go:126-137 | for forces 1 to 11, a speed is force b iff it lies in [step b-1, step b) |
| Metrics.BeaufortExamples | metrics/metrics.go:126-137 | 0, 1, 4, 11, 64 and 100 kn are forces 0, 1, 2, 4, 12 and 12 |
| Metrics.Kilometres | metrics/metrics.go:171 | the kilometre value is a thousandth of the given metres |
| Metrics.Knots | metrics/metrics.go:174-175 | the knot value converts back to the given metres per second |
| Metrics.GaugesRoundTrip | metrics/metrics.go:165-185 | the gauges written for a snapshot determine that snapshot: converting back km→m and kn→m/s recovers it |
| Metrics.GaugesOf | metrics/metrics.go:165-185 | the gauges published for a snapshot always have force gauges equal to the Beaufort force of the knot gauges beside them |
| Metrics.GaugesOfInjective | metrics/metrics.go:165-185 | different snapshots produce different gauge values |
| Metrics.SampleSnapshot | metrics/metrics.go:165-185 | 20 °C, 10000 m visibility and a 5 m/s wind from 180° give 10 km, 9.71922 kn, force 3, 180°; absent gusts and precipitation give 0 |
| Metrics.KeysOf | metrics/metrics.go:32-124 | one gauge identity per gauge, 17 in all |
| Metrics.KeysLabelTheCity | metrics/metrics.go:33-121 | each gauge carries its own name, a `city_id` label that parses back to the city id, and the city name as `city_name` label |
| Metrics.KeysDistinct | metrics/metrics.go:32-124 | the 17 gauge identities of one city are pairwise different |
| Metrics.RegisterFreshKeys | metrics/metrics.go:139-162 | registering distinct gauges that are all absent keeps the registry duplicate-free and leaves each of them there exactly once |
| Metrics.WeatherMetrics.constructor | metrics/metrics.go:32-124 | a new metric set is unregistered, carries the city id and name, and every gauge reads zero |
| Metrics.WeatherMetrics.Register | metrics/metrics.go:139-162 | afterwards the set is registered; the registry grows by the 17 gauges on the first call only; the gauge values do not change; a registry free of the city's duplicates stays so |
| Metrics.WeatherMetrics.SetMainGauges | metrics/metrics.go:165-172 | the six main readings and the cloudiness are copied; visibility is stored in km |
| Metrics.WeatherMetrics.SetWindGauges | metrics/metrics.go:174-180 | wind speed and gusts are stored in knots, the direction is copied, and each force gauge is the Beaufort force of its knot gauge |
| Metrics.WeatherMetrics.SetPrecipitationGauges | metrics/metrics.go:182-185 | the four precipitation amounts are copied |
| Metrics.WeatherMetrics.Update | metrics/metrics.go:164-190 | afterwards the gauges hold exactly the converted snapshot and the set is registered, once, however often `Update` runs |
| Cmd.Getenv | cmd/main.go:24-44 | a variable reads as empty exactly when it is unset or set to the empty string |
| Cmd.WrapInt64 | cmd/main.go:57 | the wrapped value is an int64 congruent to the exact product modulo 2^64 |
| Cmd.IntervalDuration | cmd/main.go:57 | the duration is an int64, and equals minutes × 60·10^9 ns whenever that product fits |
| Cmd.IntervalDurationFacts | cmd/main.go:43-57 | the default interval is 300 s; no wrap-around happens up to ±153722867 minutes; 153722868 minutes wrap to a negative and -153722868 minutes to a positive duration |
| Cmd.TickerIntervalCases | cmd/main.go:57-72 | `time.NewTicker` accepts 1 to 153722867 minutes and refuses 0 to -153722867; just past either bound the wrapped duration flips sign, so 153722868 is refused and -153722868 accepted |
| Cmd.LoadSettings | cmd/main.go:23-59 | an accepted configuration has an int64 city id and interval, a non-empty token and city id text, and the city name exactly as set |
| Cmd.LoadSettingsErrors | cmd/main.go:24-50 | each check fails with its own error in the order id, id syntax, token, interval; the city-name error is never produced |
| Cmd.LoadSettingsSuccess | cmd/main.go:23-59 | the configuration is accepted iff the id parses, the token is set and the interval is unset or parses; it then holds those values, 5 minutes by default |
| Cmd.NoNameNegativeIntervalExample | cmd/main.go:33-50 | an environment without a city name and with interval `-3` is accepted as is |
| Cmd.DefaultIntervalExample | cmd/main.go:43-45 | without `METEO_INTERVAL_MINUTES` the interval is 5 minutes |
| Cmd.InvalidCityIdExample | cmd/main.go:28-31 | a non-numeric city id is reported with its text |
| Cmd.CityId123 | cmd/main.go:28 | the text `123` parses to 123 |
| Cmd.ZeroIntervalPanics | cmd/main.go:43-57 | a zero interval is accepted and yields a duration `time.NewTicker` refuses |
| Cmd.CityMetrics.constructor | cmd/main.go:52-58 | the record holds the configured id, name, token, the interval as a duration, and the given metric set |
| Cmd.CityMetrics.UpdateMetrics | cmd/main.go:61-69 | the city's request URL is fetched; on an error nothing changes, otherwise the snapshot is applied by one `Update` |
| Cmd.CityMetrics.RunCycles | cmd/main.go:71-83 | after a run of cycles the gauges hold the last snapshot that arrived, and registration has happened, exactly once, iff some snapshot arrived or it had happened before |
| Cmd.LastSnapshotStep | cmd/main.go:75-80 | after one more cycle the last snapshot is that cycle's if its fetch succeeded, and otherwise the one before |
| Cmd.NewCityMetricsFromEnv | cmd/main.go:23-59 | fails with the configuration's error, or returns a new city record holding the configuration and a new, unregistered, all-zero metric set |
| Cmd.StartAndRun | cmd/main.go:85-90 | startup stops with the configuration error, stops in the ticker with the configured duration when it is not positive, or runs the configured city: its id, name, token, interval and gauge labels are those of the environment, and each of its gauges is absent from the registry before the first snapshot and there exactly once after it |

## Left out

- HTTP and JSON in `GetOwmData` (owm/client.go:55-74): the transfer, the body read, the body close and the JSON decoding are not modelled. A fetch is an outcome supplied per cycle: either a snapshot, or a `FetchError` naming the failed step (owm/client.go:56, 61, 65, 70). `updateMetrics` treats all four failures alike, and so does the model.
- `GetOwmData` never checks the HTTP status (owm/client.go:55-58). An error reply whose body decodes therefore yields a snapshot, in which missing fields are zeros, and `Update` publishes and registers it. The free network outcome allows this case; no lemma singles it out.
- `Owm.TokenRoundTrip`: is stated only for tokens without `&`, because `buildUrl` does not escape the token and a token containing `&` cannot be read back. Its reader only splits at `&`. URL parsing as `http.Get` and the server do it is not modelled: a `#` in the token would start a fragment that is never sent (and with it `&lang=de&units=metric`), and `%xx` escapes and `+` would be decoded. For such tokens the round trip says nothing about what the server receives, and `Owm.RequestUrl` is about the string handed to `http.Get`, not the request on the wire.
- `RecordMetrics` (cmd/main.go:71-83): the goroutine and the ticker's timing are not modelled. `Cmd.CityMetrics.RunCycles` models any finite number of cycles; the endless loop itself is not modelled.
- The HTTP server of `main` (cmd/main.go:92-96) and the `/metrics` handler are not modelled. Scrapes and concurrency between scrapes and updates are out of scope.
- Logging (logrus) and `log.Fatal` are not modelled. A fatal configuration error is the outcome `Fatal`.
- `os.Getenv` itself is not modelled; the environment is a map, and a missing variable reads as the empty string.
- `Decimal.Atoi`: does not distinguish Go's syntax and range errors, because the caller only tests for any error. The error text is not kept.
- Gauge help strings and the registry's internal checks, other than the duplicate-registration panic, are not modelled.
- The gauges are plain values: a gauge object shared between metric sets cannot arise in the source and is not modelled.
- Floating-point rounding is not modelled. `float64` is `real`, so the km and knot conversions are exact and invertible.
- `Metrics.WeatherMetrics.Update`: writes the gauges in three groups (main, wind, precipitation), in the source's order. Nothing observes an intermediate state, because scrapes are not modelled.
