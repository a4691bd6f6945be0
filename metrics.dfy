/**
  The per-city metric set: seventeen gauges fed from one weather snapshot, the metre and
  knot conversions, the Beaufort step function, and the deferred one-time registration
  with the process-wide registry.
 */
module Metrics {
  import Wrappers
  import Decimal
  import opened Owm
  import opened Prometheus

  /** Upper bounds (exclusive, in knots) of Beaufort forces 0 to 11; from 64 knots on the force is 12. */
  const BFT_STEPS: seq<real> := [1.0, 4.0, 7.0, 11.0, 17.0, 22.0, 28.0, 34.0, 41.0, 48.0, 56.0, 64.0]
  const MAX_BFT: nat := 12

  /** The gauge names, in the order `Register` hands the gauges to `MustRegister`. */
  const GAUGE_NAMES: seq<string> := [
    "meteo_temp_c",
    "meteo_feelslike_c",
    "meteo_tempmin_c",
    "meteo_tempmax_c",
    "meteo_pressure_hpa",
    "meteo_humidity_percent",
    "meteo_visibilty_km",
    "meteo_cloudiness_percent",
    "meteo_wind_speed_kn",
    "meteo_wind_gusts_kn",
    "meteo_wind_direction_deg",
    "meteo_wind_speed_bft",
    "meteo_wind_gusts_bft",
    "meteo_rain_1h_mm",
    "meteo_rain_3h_mm",
    "meteo_snow_1h_mm",
    "meteo_snow_3h_mm"]
  const GAUGE_COUNT: nat := 17

  /** The first index at or after `i` whose threshold lies strictly above `knots`, or 12. */
  function FirstStepAbove(knots: real, i: nat): (b: nat)
    requires i <= |BFT_STEPS|
    ensures i <= b <= |BFT_STEPS|
    decreases |BFT_STEPS| - i
  {
    if i == |BFT_STEPS| || knots < BFT_STEPS[i] then i else FirstStepAbove(knots, i + 1)
  }

  /** The search passes only thresholds at or below `knots` and stops at the first one above it. */
  lemma {:induction false} FirstStepAboveSpec(knots: real, i: nat)
    requires i <= |BFT_STEPS|
    ensures forall j :: i <= j < FirstStepAbove(knots, i) ==> BFT_STEPS[j] <= knots
    ensures FirstStepAbove(knots, i) < |BFT_STEPS| ==> knots < BFT_STEPS[FirstStepAbove(knots, i)]
    decreases |BFT_STEPS| - i
  {
    if i < |BFT_STEPS| && BFT_STEPS[i] <= knots {
      FirstStepAboveSpec(knots, i + 1);
    }
  }

  /**
    The Beaufort force of a wind speed in knots: the zero-based index of the first threshold
    strictly greater than the speed, saturating at 12.
   */
  function Beaufort(knots: real): (b: nat)
    ensures b <= MAX_BFT
  {
    FirstStepAbove(knots, 0)
  }

  /** `Beaufort(knots)` is the index of the first threshold above `knots`: all earlier ones are at or below it. */
  lemma BeaufortIsFirstStepAbove(knots: real)
    ensures forall j :: 0 <= j < Beaufort(knots) ==> BFT_STEPS[j] <= knots
    ensures Beaufort(knots) < MAX_BFT ==> knots < BFT_STEPS[Beaufort(knots)]
  {
    FirstStepAboveSpec(knots, 0);
  }

  /** `knotsToBft`: the loop over the threshold table with an early return. */
  method KnotsToBft(knots: real) returns (bft: nat)
    ensures bft == Beaufort(knots)
  {
    var i := 0;
    while i < |BFT_STEPS|
      invariant 0 <= i <= |BFT_STEPS|
      invariant forall j :: 0 <= j < i ==> BFT_STEPS[j] <= knots
    {
      if knots < BFT_STEPS[i] {
        BeaufortIsFirstStepAbove(knots);
        return i;
      }
      i := i + 1;
    }
    BeaufortIsFirstStepAbove(knots);
    return MAX_BFT;
  }

  lemma StepsAscending(i: nat, j: nat)
    requires i < j < |BFT_STEPS|
    ensures BFT_STEPS[i] < BFT_STEPS[j]
  {
  }

  /** A faster wind never has a lower force. */
  lemma BeaufortMonotone(k1: real, k2: real)
    requires k1 <= k2
    ensures Beaufort(k1) <= Beaufort(k2)
  {
    BeaufortIsFirstStepAbove(k1);
    BeaufortIsFirstStepAbove(k2);
  }

  /** Force 12 from the last threshold on; force 0 below the first, negative speeds included. */
  lemma BeaufortBounds(knots: real)
    ensures knots >= 64.0 ==> Beaufort(knots) == MAX_BFT
    ensures knots < 1.0 ==> Beaufort(knots) == 0
  {
    var b := Beaufort(knots);
    BeaufortIsFirstStepAbove(knots);
    if b < 11 {
      StepsAscending(b, 11);
    }
  }

  /** Force `b` between 1 and 11 is exactly the band from threshold `b - 1` up to, not including, threshold `b`. */
  lemma BeaufortBand(knots: real, b: nat)
    requires 0 < b < MAX_BFT
    ensures Beaufort(knots) == b <==> BFT_STEPS[b - 1] <= knots < BFT_STEPS[b]
  {
    var f := Beaufort(knots);
    BeaufortIsFirstStepAbove(knots);
    if BFT_STEPS[b - 1] <= knots < BFT_STEPS[b] {
      if f < b {
        if f < b - 1 {
          StepsAscending(f, b - 1);
        }
      }
    }
  }

  lemma BeaufortExamples()
    ensures Beaufort(0.0) == 0 && Beaufort(1.0) == 1 && Beaufort(4.0) == 2
    ensures Beaufort(11.0) == 4 && Beaufort(64.0) == 12 && Beaufort(100.0) == 12
  {
    BeaufortBand(1.0, 1);
    BeaufortBand(4.0, 2);
    BeaufortBand(11.0, 4);
    BeaufortBounds(64.0);
    BeaufortBounds(100.0);
  }

  /** Metres to kilometres, as `Update` converts the visibility. */
  function Kilometres(metres: real): (km: real)
    ensures km * 1000.0 == metres
  {
    metres / 1000.0
  }

  /** Metres per second to knots, as `Update` converts wind speed and gusts. */
  function Knots(metresPerSecond: real): (kn: real)
    ensures kn / 1.943844 == metresPerSecond
  {
    metresPerSecond * 1.943844
  }

  /** The values of the seventeen gauges of one city. */
  datatype Gauges = Gauges(
    temp: real, feelsLike: real, tempMin: real, tempMax: real,
    pressure: real, humidity: real, visibility: real, cloudiness: real,
    windSpeed: real, windGusts: real, windBft: real, windGustsBft: real, windDir: real,
    rain1h: real, rain3h: real, snow1h: real, snow3h: real)

  /** What a newly created gauge holds. */
  const ZERO_GAUGES: Gauges := Gauges(0.0, 0.0, 0.0, 0.0, 0.0, 0.0, 0.0, 0.0, 0.0, 0.0, 0.0, 0.0, 0.0, 0.0, 0.0, 0.0, 0.0)

  /** The two force gauges agree with the two knot gauges. */
  predicate Consistent(g: Gauges) {
    && g.windBft == Beaufort(g.windSpeed) as real
    && g.windGustsBft == Beaufort(g.windGusts) as real
  }

  /** The snapshot the gauges were computed from: kilometres back to metres, knots back to metres per second. */
  function Snapshot(g: Gauges): (d: WeatherData)
  {
    WeatherData(
      MainData(g.temp, g.feelsLike, g.tempMin, g.tempMax, g.pressure, g.humidity),
      g.visibility * 1000.0,
      WindData(g.windSpeed / 1.943844, g.windGusts / 1.943844, g.windDir),
      CloudsData(g.cloudiness),
      RainData(g.rain1h, g.rain3h),
      SnowData(g.snow1h, g.snow3h))
  }

  /**
    The gauge values `Update` publishes for a snapshot; the force gauges are always the
    Beaufort forces of the knot gauges published beside them.
   */
  function GaugesOf(d: WeatherData): (g: Gauges)
    ensures Consistent(g)
  {
    var windKnots := Knots(d.wind.speed);
    var gustKnots := Knots(d.wind.gust);
    Gauges(
      d.main.temp, d.main.feelsLike, d.main.tempMin, d.main.tempMax,
      d.main.pressure, d.main.humidity, Kilometres(d.visibility), d.clouds.percentage,
      windKnots, gustKnots, Beaufort(windKnots) as real, Beaufort(gustKnots) as real, d.wind.direction,
      d.rain.last1h, d.rain.last3h, d.snow.last1h, d.snow.last3h)
  }

  /** Nothing is lost in the conversions: the snapshot is recovered from the gauges. */
  lemma GaugesRoundTrip(d: WeatherData)
    ensures Snapshot(GaugesOf(d)) == d
  {
  }

  /** Two snapshots that publish the same gauge values are the same snapshot. */
  lemma GaugesOfInjective(d1: WeatherData, d2: WeatherData)
    requires GaugesOf(d1) == GaugesOf(d2)
    ensures d1 == d2
  {
    GaugesRoundTrip(d1);
    GaugesRoundTrip(d2);
  }

  /**
    A typical snapshot: 20 degrees, 5 m/s from 180 degrees, 40 percent cloud, 10000 m
    visibility, no precipitation. 5 m/s is 9.71922 knots, which lies in the band from 7 to
    11 knots, so the published force is 3.
   */
  lemma SampleSnapshot()
    ensures var g := GaugesOf(WeatherData(
                       MainData(20.0, 0.0, 0.0, 0.0, 0.0, 0.0), 10000.0, WindData(5.0, 0.0, 180.0),
                       CloudsData(40.0), RainData(0.0, 0.0), SnowData(0.0, 0.0)));
            && g.temp == 20.0 && g.visibility == 10.0 && g.cloudiness == 40.0
            && g.windSpeed == 9.71922 && g.windBft == 3.0 && g.windDir == 180.0
            && g.windGusts == 0.0 && g.windGustsBft == 0.0
            && g.rain1h == 0.0 && g.rain3h == 0.0 && g.snow1h == 0.0 && g.snow3h == 0.0
  {
    assert Knots(5.0) == 9.71922;
    assert Knots(0.0) == 0.0;
    BeaufortBand(9.71922, 3);
    BeaufortBounds(0.0);
  }

  /** The registry identities of the gauges of one city, in registration order. */
  function KeysOf(cityId: int, cityName: string): (keys: seq<GaugeKey>)
    ensures |keys| == GAUGE_COUNT
  {
    seq(GAUGE_COUNT, i requires 0 <= i < GAUGE_COUNT => GaugeKey(GAUGE_NAMES[i], Decimal.FormatInt(cityId), cityName))
  }

  /** The seventeen identities of one city are pairwise different, because the names are. */
  lemma KeysDistinct(cityId: int, cityName: string)
    ensures Distinct(KeysOf(cityId, cityName))
  {
    var keys := KeysOf(cityId, cityName);
    forall i, j | 0 <= i < j < |keys|
      ensures keys[i] != keys[j]
    {
      assert keys[i].name == GAUGE_NAMES[i] && keys[j].name == GAUGE_NAMES[j];
    }
  }

  /** Every gauge's `city_id` label reads back as the city id, and its `city_name` label is the name. */
  lemma KeysLabelTheCity(cityId: int, cityName: string)
    requires Decimal.InInt64(cityId)
    ensures forall i :: 0 <= i < GAUGE_COUNT ==>
              var key := KeysOf(cityId, cityName)[i];
              Decimal.Atoi(key.cityId) == Wrappers.Some(cityId) && key.cityName == cityName && key.name == GAUGE_NAMES[i]
  {
    Decimal.FormatIntRoundTrip(cityId);
  }

  /** `WeatherMetrics`: the gauges of one city and whether they have been registered. */
  class WeatherMetrics {
    var isRegistered: bool
    const cityId: int
    const cityName: string
    var temp: real
    var feelsLike: real
    var tempMin: real
    var tempMax: real
    var pressure: real
    var humidity: real
    var visibility: real
    var cloudiness: real
    var windSpeed: real
    var windGusts: real
    var windBft: real
    var windGustsBft: real
    var windDir: real
    var rain1h: real
    var rain3h: real
    var snow1h: real
    var snow3h: real

    /** `NewWeatherMetrics`: all gauges at zero, nothing registered. */
    constructor (cityId: int, cityName: string)
      ensures !isRegistered
      ensures this.cityId == cityId && this.cityName == cityName
      ensures Readings() == ZERO_GAUGES
    {
      isRegistered := false;
      this.cityId := cityId;
      this.cityName := cityName;
      temp, feelsLike, tempMin, tempMax := 0.0, 0.0, 0.0, 0.0;
      pressure, humidity, visibility, cloudiness := 0.0, 0.0, 0.0, 0.0;
      windSpeed, windGusts, windBft, windGustsBft, windDir := 0.0, 0.0, 0.0, 0.0, 0.0;
      rain1h, rain3h, snow1h, snow3h := 0.0, 0.0, 0.0, 0.0;
    }

    /** The current gauge values. */
    function Readings(): (g: Gauges)
      reads this
    {
      Gauges(temp, feelsLike, tempMin, tempMax, pressure, humidity, visibility, cloudiness,
             windSpeed, windGusts, windBft, windGustsBft, windDir, rain1h, rain3h, snow1h, snow3h)
    }

    function Keys(): (keys: seq<GaugeKey>)
      ensures |keys| == GAUGE_COUNT
    {
      KeysOf(cityId, cityName)
    }

    /**
      The registry agrees with the flag: no identity is registered twice, and each of this
      city's gauges is registered once if the flag is set and not at all otherwise.
     */
    ghost predicate RegisteredIn(reg: Registry)
      reads this`isRegistered, reg
    {
      && NoDuplicates(reg.entries)
      && forall i :: 0 <= i < GAUGE_COUNT ==> reg.entries[Keys()[i]] == if isRegistered then 1 else 0
    }

    /** `Register`: hands all seventeen gauges to the registry, the first time only. */
    method Register(reg: Registry)
      modifies this`isRegistered, reg
      ensures isRegistered
      ensures reg.entries == if old(isRegistered) then old(reg.entries) else old(reg.entries) + multiset(Keys())
      ensures old(RegisteredIn(reg)) ==> RegisteredIn(reg)
      ensures Readings() == old(Readings())
    {
      if !isRegistered {
        ghost var before := reg.entries;
        reg.MustRegister(Keys());
        isRegistered := true;
        if NoDuplicates(before) && forall i :: 0 <= i < GAUGE_COUNT ==> before[Keys()[i]] == 0 {
          KeysDistinct(cityId, cityName);
          RegisterFreshKeys(before, Keys());
        }
      }
    }

    /** The first block of `Update`: temperatures, pressure, humidity, visibility in km, cloudiness. */
    method SetMainGauges(d: WeatherData)
      modifies this`temp, this`feelsLike, this`tempMin, this`tempMax,
               this`pressure, this`humidity, this`visibility, this`cloudiness
      ensures temp == d.main.temp && feelsLike == d.main.feelsLike
      ensures tempMin == d.main.tempMin && tempMax == d.main.tempMax
      ensures pressure == d.main.pressure && humidity == d.main.humidity
      ensures visibility == Kilometres(d.visibility) && cloudiness == d.clouds.percentage
    {
      temp := d.main.temp;
      feelsLike := d.main.feelsLike;
      tempMin := d.main.tempMin;
      tempMax := d.main.tempMax;
      pressure := d.main.pressure;
      humidity := d.main.humidity;
      visibility := Kilometres(d.visibility);
      cloudiness := d.clouds.percentage;
    }

    /** The second block of `Update`: speeds in knots, direction, and the two Beaufort forces. */
    method SetWindGauges(d: WeatherData)
      modifies this`windSpeed, this`windGusts, this`windDir, this`windBft, this`windGustsBft
      ensures windSpeed == Knots(d.wind.speed)
      ensures windGusts == Knots(d.wind.gust)
      ensures windDir == d.wind.direction
      ensures windBft == Beaufort(windSpeed) as real && windGustsBft == Beaufort(windGusts) as real
    {
      var windKnots := Knots(d.wind.speed);
      var gustKnots := Knots(d.wind.gust);
      windSpeed := windKnots;
      windGusts := gustKnots;
      windDir := d.wind.direction;
      var force := KnotsToBft(windKnots);
      windBft := force as real;
      force := KnotsToBft(gustKnots);
      windGustsBft := force as real;
    }

    /** The third block of `Update`: rain and snow volumes. */
    method SetPrecipitationGauges(d: WeatherData)
      modifies this`rain1h, this`rain3h, this`snow1h, this`snow3h
      ensures rain1h == d.rain.last1h && rain3h == d.rain.last3h
      ensures snow1h == d.snow.last1h && snow3h == d.snow.last3h
    {
      rain1h := d.rain.last1h;
      rain3h := d.rain.last3h;
      snow1h := d.snow.last1h;
      snow3h := d.snow.last3h;
    }

    /**
      `Update`: overwrites every gauge from the snapshot, then registers. The new readings
      depend on `d` alone, whatever the gauges held before.
     */
    method Update(d: WeatherData, reg: Registry)
      modifies this, reg
      ensures Readings() == GaugesOf(d)
      ensures isRegistered
      ensures reg.entries == if old(isRegistered) then old(reg.entries) else old(reg.entries) + multiset(Keys())
      ensures old(RegisteredIn(reg)) ==> RegisteredIn(reg)
    {
      ghost var wasRegistered := RegisteredIn(reg);
      SetMainGauges(d);
      SetWindGauges(d);
      SetPrecipitationGauges(d);
      assert Readings() == GaugesOf(d);
      assert RegisteredIn(reg) == wasRegistered;
      Register(reg);
    }
  }

  /** Registering a city's keys, none of them present yet, into a registry without duplicates. */
  lemma RegisterFreshKeys(before: multiset<GaugeKey>, keys: seq<GaugeKey>)
    requires NoDuplicates(before) && Distinct(keys)
    requires forall i :: 0 <= i < |keys| ==> before[keys[i]] == 0
    ensures NoDuplicates(before + multiset(keys))
    ensures forall i :: 0 <= i < |keys| ==> (before + multiset(keys))[keys[i]] == 1
  {
    RegisterKeepsNoDuplicates(before, keys);
    DistinctCounts(keys);
    forall i | 0 <= i < |keys|
      ensures (before + multiset(keys))[keys[i]] == 1
    {
      assert keys[i] in multiset(keys);
    }
  }
}
