/**
  The exporter's main package: reading the configuration from the environment, the city
  record it builds, and the fetch-then-update cycle. The environment is passed in as a
  map (a variable that is not set reads as the empty string, as with `os.Getenv`), and the
  network as a function from the requested URL to the fetch outcome.
 */
module Cmd {
  import opened Wrappers
  import Decimal
  import opened Owm
  import opened Prometheus
  import opened Metrics

  type Env = map<string, string>

  const CITY_ID_VAR: string := "METEO_CITY_ID"
  const CITY_NAME_VAR: string := "METEO_CITY_NAME"
  const API_TOKEN_VAR: string := "METEO_API_TOKEN"
  const INTERVAL_VAR: string := "METEO_INTERVAL_MINUTES"
  const DEFAULT_INTERVAL_MINUTES: int := 5
  /** `time.Minute`, in the nanoseconds a `time.Duration` counts. */
  const NANOS_PER_MINUTE: int := 60_000_000_000
  const TWO_TO_64: int := 0x1_0000_0000_0000_0000

  /** `os.Getenv`: the value, or the empty string when the variable is not set. */
  function Getenv(env: Env, key: string): (value: string)
    ensures value == "" <==> key !in env || env[key] == ""
  {
    if key in env then env[key] else ""
  }

  /** The startup errors; each stands for one `fmt.Errorf` message. */
  datatype ConfigError =
    | MissingVariable(variable: string)
    | InvalidCityId(text: string)
    | InvalidInterval(text: string)

  /** The values `NewCityMetricsFromEnv` reads before it builds the city record. */
  datatype Settings = Settings(cityId: int, cityName: string, apiToken: string, intervalMinutes: int)

  /** Go's two's-complement int64 arithmetic: `x` reduced into the int64 range modulo 2^64. */
  function WrapInt64(x: int): (w: int)
    ensures Decimal.InInt64(w)
    ensures (x - w) % TWO_TO_64 == 0
  {
    var m := x % TWO_TO_64;
    if m <= Decimal.INT64_MAX then m else m - TWO_TO_64
  }

  /** `time.Duration(minutes) * time.Minute`, which wraps around on overflow. */
  function IntervalDuration(minutes: int): (nanos: int)
    ensures Decimal.InInt64(nanos)
    ensures Decimal.InInt64(minutes * NANOS_PER_MINUTE) ==> nanos == minutes * NANOS_PER_MINUTE
  {
    WrapInt64(minutes * NANOS_PER_MINUTE)
  }

  /**
    The checks of `NewCityMetricsFromEnv`, in their order. The second check re-tests the
    city id text where the city name was meant, so it never fails and an empty or missing
    city name is accepted.
   */
  function LoadSettings(env: Env): (r: Result<Settings, ConfigError>)
    ensures r.Success? ==> Decimal.InInt64(r.value.cityId) && Decimal.InInt64(r.value.intervalMinutes)
    ensures r.Success? ==> r.value.apiToken != "" && r.value.cityName == Getenv(env, CITY_NAME_VAR)
    ensures r.Success? ==> Getenv(env, CITY_ID_VAR) != ""
  {
    var cityIdString := Getenv(env, CITY_ID_VAR);
    if cityIdString == "" then Failure(MissingVariable(CITY_ID_VAR))
    else
      match Decimal.Atoi(cityIdString)
      case None => Failure(InvalidCityId(cityIdString))
      case Some(cityId) =>
        var cityName := Getenv(env, CITY_NAME_VAR);
        if cityIdString == "" then Failure(MissingVariable(CITY_NAME_VAR))
        else
          var token := Getenv(env, API_TOKEN_VAR);
          if token == "" then Failure(MissingVariable(API_TOKEN_VAR))
          else
            var intervalMinutesString := Getenv(env, INTERVAL_VAR);
            if intervalMinutesString == "" then Success(Settings(cityId, cityName, token, DEFAULT_INTERVAL_MINUTES))
            else
              match Decimal.Atoi(intervalMinutesString)
              case None => Failure(InvalidInterval(intervalMinutesString))
              case Some(intervalMinutes) => Success(Settings(cityId, cityName, token, intervalMinutes))
  }

  /** Each check fails with its own error, and the first failing check decides the error. */
  lemma LoadSettingsErrors(env: Env)
    ensures Getenv(env, CITY_ID_VAR) == "" ==> LoadSettings(env) == Failure(MissingVariable(CITY_ID_VAR))
    ensures Getenv(env, CITY_ID_VAR) != "" && Decimal.Atoi(Getenv(env, CITY_ID_VAR)).None?
            ==> LoadSettings(env) == Failure(InvalidCityId(Getenv(env, CITY_ID_VAR)))
    ensures Decimal.Atoi(Getenv(env, CITY_ID_VAR)).Some? && Getenv(env, API_TOKEN_VAR) == ""
            ==> LoadSettings(env) == Failure(MissingVariable(API_TOKEN_VAR))
    ensures Decimal.Atoi(Getenv(env, CITY_ID_VAR)).Some? && Getenv(env, API_TOKEN_VAR) != ""
            && Getenv(env, INTERVAL_VAR) != "" && Decimal.Atoi(Getenv(env, INTERVAL_VAR)).None?
            ==> LoadSettings(env) == Failure(InvalidInterval(Getenv(env, INTERVAL_VAR)))
    ensures LoadSettings(env) != Failure(MissingVariable(CITY_NAME_VAR))
  {
  }

  /**
    The configuration is accepted exactly when the city id is a valid integer, the token is
    set and the interval is unset or a valid integer; it then holds those values, five minutes
    when the interval is unset, and any parsed interval, zero and negative ones included.
   */
  lemma LoadSettingsSuccess(env: Env)
    ensures LoadSettings(env).Success?
        <==> && Decimal.Atoi(Getenv(env, CITY_ID_VAR)).Some?
             && Getenv(env, API_TOKEN_VAR) != ""
             && (Getenv(env, INTERVAL_VAR) == "" || Decimal.Atoi(Getenv(env, INTERVAL_VAR)).Some?)
    ensures LoadSettings(env).Success? ==>
              var s := LoadSettings(env).value;
              && Decimal.Atoi(Getenv(env, CITY_ID_VAR)) == Some(s.cityId)
              && s.cityName == Getenv(env, CITY_NAME_VAR)
              && s.apiToken == Getenv(env, API_TOKEN_VAR)
              && s.intervalMinutes == if Getenv(env, INTERVAL_VAR) == "" then DEFAULT_INTERVAL_MINUTES
                                      else Decimal.Atoi(Getenv(env, INTERVAL_VAR)).value
  {
  }

  /** A configuration with no city name at all, and a negative interval, is accepted. */
  lemma NoNameNegativeIntervalExample()
    ensures LoadSettings(map[CITY_ID_VAR := "123", API_TOKEN_VAR := "foobar", INTERVAL_VAR := "-3"])
         == Success(Settings(123, "", "foobar", -3))
  {
    var env := map[CITY_ID_VAR := "123", API_TOKEN_VAR := "foobar", INTERVAL_VAR := "-3"];
    assert Getenv(env, CITY_NAME_VAR) == "";
    CityId123();
    Decimal.FormatIntRoundTrip(-3);
    assert Decimal.FormatInt(-3) == "-3";
  }

  /** Without an interval the default of five minutes is taken. */
  lemma DefaultIntervalExample()
    ensures LoadSettings(map[CITY_ID_VAR := "123", CITY_NAME_VAR := "Berlin", API_TOKEN_VAR := "foobar"])
         == Success(Settings(123, "Berlin", "foobar", 5))
  {
    var env := map[CITY_ID_VAR := "123", CITY_NAME_VAR := "Berlin", API_TOKEN_VAR := "foobar"];
    assert Getenv(env, INTERVAL_VAR) == "";
    CityId123();
  }

  /** A city id that is not a number is reported with its text. */
  lemma InvalidCityIdExample()
    ensures LoadSettings(map[CITY_ID_VAR := "Berlin", API_TOKEN_VAR := "foobar"])
         == Failure(InvalidCityId("Berlin"))
  {
    assert !Decimal.IsDigit("Berlin"[0]);
  }

  lemma CityId123()
    ensures Decimal.Atoi("123") == Some(123)
  {
    Decimal.FormatIntRoundTrip(123);
    assert Decimal.FormatInt(123) == "123" by {
      assert Decimal.Digits(1) == "1";
      assert Decimal.Digits(12) == "12";
    }
  }

  /** The interval of the default configuration, and the range in which the conversion does not wrap. */
  lemma IntervalDurationFacts(minutes: int)
    ensures IntervalDuration(DEFAULT_INTERVAL_MINUTES) == 300_000_000_000
    ensures -153_722_867 <= minutes <= 153_722_867 ==> IntervalDuration(minutes) == minutes * NANOS_PER_MINUTE
    ensures IntervalDuration(153_722_868) < 0
    ensures IntervalDuration(-153_722_868) > 0
  {
  }

  /**
    Whether `time.NewTicker` accepts the configured interval depends on the wrapped duration:
    1 to 153722867 minutes are accepted and 0 to -153722867 are refused, while the first values
    past either end wrap to the opposite sign.
   */
  lemma TickerIntervalCases(minutes: int)
    ensures 0 < minutes <= 153_722_867 ==> TickerAccepts(IntervalDuration(minutes))
    ensures -153_722_867 <= minutes <= 0 ==> !TickerAccepts(IntervalDuration(minutes))
    ensures !TickerAccepts(IntervalDuration(153_722_868))
    ensures TickerAccepts(IntervalDuration(-153_722_868))
  {
    IntervalDurationFacts(minutes);
  }

  /** `CityMetrics`: one city's immutable configuration and its metric set. */
  class CityMetrics {
    const id: int
    const name: string
    const apiToken: string
    /** `IntervalMinutes`, a `time.Duration` in nanoseconds despite the field's name. */
    const interval: int
    const metrics: WeatherMetrics

    constructor (s: Settings, metrics: WeatherMetrics)
      ensures id == s.cityId && name == s.cityName && apiToken == s.apiToken
      ensures interval == IntervalDuration(s.intervalMinutes)
      ensures this.metrics == metrics
    {
      id := s.cityId;
      name := s.cityName;
      apiToken := s.apiToken;
      interval := IntervalDuration(s.intervalMinutes);
      this.metrics := metrics;
    }

    /**
      `updateMetrics`: one fetch of this city's URL; a failed fetch leaves the metric set and
      the registry as they were, a successful one is applied by exactly one `Update`.
     */
    method UpdateMetrics(network: string -> Result<WeatherData, FetchError>, reg: Registry)
      modifies metrics, reg
      ensures var fetched := network(RequestUrl(id, apiToken));
              if fetched.Failure? then
                unchanged(metrics) && unchanged(reg)
              else
                && metrics.Readings() == GaugesOf(fetched.value)
                && metrics.isRegistered
                && reg.entries == if old(metrics.isRegistered) then old(reg.entries)
                                  else old(reg.entries) + multiset(metrics.Keys())
      ensures old(metrics.RegisteredIn(reg)) ==> metrics.RegisteredIn(reg)
    {
      var weatherData := network(RequestUrl(id, apiToken));
      if weatherData.Success? {
        metrics.Update(weatherData.value, reg);
      }
    }

    /**
      The cycles `RecordMetrics` runs, the initial one and one per tick, for a run of
      `|networks|` cycles whose `i`-th fetch sees `networks[i]`. Afterwards the gauges hold
      the last snapshot that arrived (or what they held before, if none did), registration
      has happened iff some snapshot arrived or it had happened before, and it happened once.
     */
    method RunCycles(networks: seq<string -> Result<WeatherData, FetchError>>, reg: Registry)
      modifies metrics, reg
      ensures var last := LastSnapshot(networks, RequestUrl(id, apiToken));
              && metrics.Readings() == (if last.Some? then GaugesOf(last.value) else old(metrics.Readings()))
              && metrics.isRegistered == (old(metrics.isRegistered) || last.Some?)
              && reg.entries == if old(metrics.isRegistered) || last.None? then old(reg.entries)
                                else old(reg.entries) + multiset(metrics.Keys())
      ensures old(metrics.RegisteredIn(reg)) ==> metrics.RegisteredIn(reg)
    {
      ghost var url := RequestUrl(id, apiToken);
      var i := 0;
      while i < |networks|
        invariant 0 <= i <= |networks|
        invariant var last := LastSnapshot(networks[..i], url);
                  && metrics.Readings() == (if last.Some? then GaugesOf(last.value) else old(metrics.Readings()))
                  && metrics.isRegistered == (old(metrics.isRegistered) || last.Some?)
                  && reg.entries == if old(metrics.isRegistered) || last.None? then old(reg.entries)
                                    else old(reg.entries) + multiset(metrics.Keys())
        invariant old(metrics.RegisteredIn(reg)) ==> metrics.RegisteredIn(reg)
      {
        LastSnapshotStep(networks, i, url);
        UpdateMetrics(networks[i], reg);
        i := i + 1;
      }
      assert networks[..i] == networks;
    }
  }

  /** The snapshot of the last successful fetch of `url`, if any fetch succeeded. */
  function LastSnapshot(networks: seq<string -> Result<WeatherData, FetchError>>, url: string): (last: Option<WeatherData>)
    decreases |networks|
  {
    if networks == [] then None
    else match networks[|networks| - 1](url)
      case Success(d) => Some(d)
      case Failure(_) => LastSnapshot(networks[..|networks| - 1], url)
  }

  /** One more cycle: its snapshot if the fetch succeeded, otherwise the last one before it. */
  lemma LastSnapshotStep(networks: seq<string -> Result<WeatherData, FetchError>>, i: nat, url: string)
    requires i < |networks|
    ensures LastSnapshot(networks[..i + 1], url)
         == if networks[i](url).Success? then Some(networks[i](url).value) else LastSnapshot(networks[..i], url)
  {
    assert networks[..i + 1][..i] == networks[..i];
  }

  /**
    `NewCityMetricsFromEnv`: the checked configuration, or its error; on success a new city
    record whose metric set is new, unregistered and holds zeros.
   */
  method NewCityMetricsFromEnv(env: Env) returns (r: Result<CityMetrics, ConfigError>)
    ensures r.Failure? <==> LoadSettings(env).Failure?
    ensures r.Failure? ==> r.error == LoadSettings(env).error
    ensures r.Success? ==>
              var s := LoadSettings(env).value;
              && fresh(r.value) && fresh(r.value.metrics)
              && r.value.id == s.cityId && r.value.name == s.cityName && r.value.apiToken == s.apiToken
              && r.value.interval == IntervalDuration(s.intervalMinutes)
              && !r.value.metrics.isRegistered
              && r.value.metrics.cityId == s.cityId && r.value.metrics.cityName == s.cityName
              && r.value.metrics.Readings() == ZERO_GAUGES
  {
    match LoadSettings(env)
    case Failure(e) =>
      r := Failure(e);
    case Success(s) =>
      var metrics := new WeatherMetrics(s.cityId, s.cityName);
      var city := new CityMetrics(s, metrics);
      r := Success(city);
  }

  /** How `main` ends up: stopped by `log.Fatal`, stopped by a panic of `time.NewTicker`, or serving. */
  datatype Startup =
    | Fatal(error: ConfigError)
    | TickerPanic(interval: int)
    | Serving(city: CityMetrics)

  /** `time.NewTicker` panics unless its duration is positive. */
  predicate TickerAccepts(interval: int) {
    interval > 0
  }

  /**
    `main` up to the HTTP server: the configuration, then `RecordMetrics` with its first
    `|networks|` cycles. Before the first successful fetch nothing of the city is in the
    registry; afterwards each of its gauges is there exactly once, and never twice.
   */
  method StartAndRun(env: Env, networks: seq<string -> Result<WeatherData, FetchError>>, reg: Registry)
    returns (r: Startup)
    requires NoDuplicates(reg.entries)
    requires forall k :: k in reg.entries ==> !(exists i :: 0 <= i < |GAUGE_NAMES| && k.name == GAUGE_NAMES[i])
    modifies reg
    ensures r.Fatal? <==> LoadSettings(env).Failure?
    ensures r.Fatal? ==> r.error == LoadSettings(env).error
    ensures r.TickerPanic? <==>
              LoadSettings(env).Success? && !TickerAccepts(IntervalDuration(LoadSettings(env).value.intervalMinutes))
    ensures r.TickerPanic? ==> r.interval == IntervalDuration(LoadSettings(env).value.intervalMinutes)
    ensures !r.Serving? ==> reg.entries == old(reg.entries)
    ensures r.Serving? ==>
              var s := LoadSettings(env).value;
              && r.city.id == s.cityId && r.city.name == s.cityName && r.city.apiToken == s.apiToken
              && r.city.interval == IntervalDuration(s.intervalMinutes)
              && r.city.metrics.cityId == s.cityId && r.city.metrics.cityName == s.cityName
    ensures r.Serving? ==>
              var last := LastSnapshot(networks, RequestUrl(r.city.id, r.city.apiToken));
              && NoDuplicates(reg.entries)
              && (forall i :: 0 <= i < GAUGE_COUNT ==>
                    reg.entries[r.city.metrics.Keys()[i]] == if last.Some? then 1 else 0)
              && r.city.metrics.Readings() == if last.Some? then GaugesOf(last.value) else ZERO_GAUGES
  {
    var loaded := NewCityMetricsFromEnv(env);
    if loaded.Failure? {
      return Fatal(loaded.error);
    }
    var city := loaded.value;
    if !TickerAccepts(city.interval) {
      return TickerPanic(city.interval);
    }
    forall i | 0 <= i < GAUGE_COUNT
      ensures reg.entries[city.metrics.Keys()[i]] == 0
    {
      assert city.metrics.Keys()[i].name == GAUGE_NAMES[i];
    }
    assert city.metrics.RegisteredIn(reg);
    city.RunCycles(networks, reg);
    r := Serving(city);
  }

  /**
    Since the interval is not range-checked, a zero interval passes the configuration and
    then stops the exporter in `time.NewTicker`.
   */
  lemma ZeroIntervalPanics()
    ensures var r := LoadSettings(map[CITY_ID_VAR := "123", API_TOKEN_VAR := "foobar", INTERVAL_VAR := "0"]);
            r.Success? && !TickerAccepts(IntervalDuration(r.value.intervalMinutes))
  {
    CityId123();
    assert Decimal.Atoi("0") == Some(0) by {
      Decimal.FormatIntRoundTrip(0);
      assert Decimal.FormatInt(0) == "0";
    }
  }
}
