/**
  The OpenWeatherMap client: the snapshot records a response decodes into, and the
  request URL. The HTTP exchange and the JSON decoding are not modelled; a fetch is
  represented by its outcome, a `Result<WeatherData, FetchError>`.
 */
module Owm {
  import opened Wrappers
  import Decimal

  datatype MainData = MainData(temp: real, feelsLike: real, tempMin: real, tempMax: real, pressure: real, humidity: real)

  datatype WindData = WindData(speed: real, gust: real, direction: real)

  datatype CloudsData = CloudsData(percentage: real)

  datatype RainData = RainData(last1h: real, last3h: real)

  datatype SnowData = SnowData(last1h: real, last3h: real)

  /** One decoded response; a field missing from the JSON body decodes to zero. */
  datatype WeatherData = WeatherData(
    main: MainData,
    visibility: real,
    wind: WindData,
    clouds: CloudsData,
    rain: RainData,
    snow: SnowData)

  /**
    The step of `GetOwmData` whose error ended the fetch: the GET, reading the body, closing
    the body, or decoding the body as JSON. The HTTP status is never checked, so an error
    reply whose body decodes is not a `FetchError` but a snapshot.
   */
  datatype FetchError = GetFailed | ReadFailed | CloseFailed | UnmarshalFailed

  const URL_PREFIX: string := "http://api.openweathermap.org/data/2.5/weather?id="
  const TOKEN_KEY: string := "&appid="
  const LANGUAGE_KEY: string := "&lang="
  const UNITS_SUFFIX: string := "&units=metric"
  /** The language `GetOwmData` always asks for. */
  const REQUEST_LANGUAGE: string := "de"

  predicate HasPrefix(s: string, p: string) {
    |p| <= |s| && s[..|p|] == p
  }

  predicate HasSuffix(s: string, x: string) {
    |x| <= |s| && s[|s| - |x|..] == x
  }

  lemma ConcatHasPrefix(a: string, b: string)
    ensures HasPrefix(a + b, a)
  {
    assert (a + b)[..|a|] == a;
  }

  lemma ConcatHasSuffix(a: string, b: string)
    ensures HasSuffix(a + b, b)
  {
    assert (a + b)[|a|..] == b;
  }

  lemma SuffixOfSuffix(s: string, t: string, u: string)
    requires HasSuffix(s, t) && HasSuffix(t, u)
    ensures HasSuffix(s, u)
  {
    assert s[|s| - |u|..] == t[|t| - |u|..];
  }

  /** `buildUrl`: the weather endpoint with the city id in decimal, the token and the language substituted, units always metric. */
  function BuildUrl(cityId: int, token: string, language: string): (url: string)
    ensures HasPrefix(url, URL_PREFIX)
    ensures HasSuffix(url, LANGUAGE_KEY + (language + UNITS_SUFFIX))
    ensures HasSuffix(url, UNITS_SUFFIX)
  {
    var tail := LANGUAGE_KEY + (language + UNITS_SUFFIX);
    var afterId := TOKEN_KEY + (token + tail);
    var url := URL_PREFIX + (Decimal.FormatInt(cityId) + afterId);
    ConcatHasPrefix(URL_PREFIX, Decimal.FormatInt(cityId) + afterId);
    ConcatHasSuffix(URL_PREFIX, Decimal.FormatInt(cityId) + afterId);
    ConcatHasSuffix(Decimal.FormatInt(cityId), afterId);
    ConcatHasSuffix(TOKEN_KEY, token + tail);
    ConcatHasSuffix(token, tail);
    ConcatHasSuffix(LANGUAGE_KEY, language + UNITS_SUFFIX);
    ConcatHasSuffix(language, UNITS_SUFFIX);
    SuffixOfSuffix(url, Decimal.FormatInt(cityId) + afterId, afterId);
    SuffixOfSuffix(url, afterId, token + tail);
    SuffixOfSuffix(url, token + tail, tail);
    SuffixOfSuffix(tail, language + UNITS_SUFFIX, UNITS_SUFFIX);
    SuffixOfSuffix(url, tail, UNITS_SUFFIX);
    url
  }

  /** The URL `GetOwmData(cityId, token)` sends its GET to: language German, units metric. */
  function RequestUrl(cityId: int, token: string): (url: string)
    ensures HasPrefix(url, URL_PREFIX)
    ensures HasSuffix(url, "&lang=de&units=metric")
  {
    assert LANGUAGE_KEY + (REQUEST_LANGUAGE + UNITS_SUFFIX) == "&lang=de&units=metric";
    BuildUrl(cityId, token, REQUEST_LANGUAGE)
  }

  /** The longest prefix of `s` that does not contain `c`. */
  function TakeUntil(s: string, c: char): (p: string)
    ensures c !in p && HasPrefix(s, p)
    ensures p == s || s[|p|] == c
  {
    if s == [] || s[0] == c then [] else [s[0]] + TakeUntil(s[1..], c)
  }

  /** The `id` query parameter of a weather URL, read back as a Go `int`. */
  function QueryCityId(url: string): (id: Option<int>)
  {
    if HasPrefix(url, URL_PREFIX) then Decimal.Atoi(TakeUntil(url[|URL_PREFIX|..], '&')) else None
  }

  /** The `appid` query parameter of a weather URL, provided it directly follows `id`. */
  function QueryToken(url: string): (token: Option<string>)
  {
    if !HasPrefix(url, URL_PREFIX) then None
    else
      var rest := url[|URL_PREFIX|..];
      var tail := rest[|TakeUntil(rest, '&')|..];
      if HasPrefix(tail, TOKEN_KEY) then Some(TakeUntil(tail[|TOKEN_KEY|..], '&')) else None
  }

  lemma {:induction false} TakeUntilStopsAt(a: string, b: string, c: char)
    requires c !in a && b != [] && b[0] == c
    ensures TakeUntil(a + b, c) == a
  {
    if a != [] {
      assert (a + b)[1..] == a[1..] + b;
      TakeUntilStopsAt(a[1..], b, c);
    }
  }

  lemma FormatIntHasNoAmpersand(n: int)
    ensures '&' !in Decimal.FormatInt(n)
  {
    Decimal.DigitsAreDigits(if n < 0 then -n else n);
  }

  /** What follows the fixed prefix of a built URL. */
  lemma AfterPrefix(cityId: int, token: string, language: string)
    ensures BuildUrl(cityId, token, language)[|URL_PREFIX|..]
         == Decimal.FormatInt(cityId) + (TOKEN_KEY + (token + (LANGUAGE_KEY + (language + UNITS_SUFFIX))))
  {
  }

  /** The city id survives the trip through the URL: reading the `id` parameter back gives it again. */
  lemma CityIdRoundTrip(cityId: int, token: string, language: string)
    requires Decimal.InInt64(cityId)
    ensures QueryCityId(BuildUrl(cityId, token, language)) == Some(cityId)
  {
    var digits := Decimal.FormatInt(cityId);
    var after := TOKEN_KEY + (token + (LANGUAGE_KEY + (language + UNITS_SUFFIX)));
    AfterPrefix(cityId, token, language);
    FormatIntHasNoAmpersand(cityId);
    TakeUntilStopsAt(digits, after, '&');
    Decimal.FormatIntRoundTrip(cityId);
  }

  /**
    A token without `&` survives the trip through the URL. The token is not escaped, so one
    holding `&` would split into further query parameters.
   */
  lemma TokenRoundTrip(cityId: int, token: string, language: string)
    requires '&' !in token
    ensures QueryToken(BuildUrl(cityId, token, language)) == Some(token)
  {
    var digits := Decimal.FormatInt(cityId);
    var tokenPart := LANGUAGE_KEY + (language + UNITS_SUFFIX);
    var after := TOKEN_KEY + (token + tokenPart);
    AfterPrefix(cityId, token, language);
    FormatIntHasNoAmpersand(cityId);
    TakeUntilStopsAt(digits, after, '&');
    assert (digits + after)[|digits|..] == after;
    assert after[|TOKEN_KEY|..] == token + tokenPart;
    TakeUntilStopsAt(token, tokenPart, '&');
  }

  /**
    The repository's own test of `buildUrl`, its expected URL written as the concatenation of
    its literal parts: endpoint, `123`, `&appid=`, `foobar`, `&lang=`, `de`, `&units=metric`.
   */
  lemma BuildUrlExample()
    ensures BuildUrl(123, "foobar", "de")
         == "http://api.openweathermap.org/data/2.5/weather?id=" + ("123" + ("&appid=" + ("foobar" + ("&lang=" + ("de" + "&units=metric")))))
  {
    assert Decimal.Digits(1) == "1";
    assert Decimal.Digits(12) == "12";
    assert Decimal.FormatInt(123) == "123";
  }
}
