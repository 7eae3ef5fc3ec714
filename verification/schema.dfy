/**
 * The shapes the route works with: the normalised payload it answers with, the bodies of the
 * upstream services it reads, the outbound requests it makes, and the outside world (network
 * replies, clock, date and number parsing) passed in as functions.
 */
module Schema {
  import opened Wrappers

  /**
   * A JavaScript number. The route only copies numbers from one JSON shape into another, so
   * they are carried through unchanged; no arithmetic is done on them.
   */
  type Num = real

  // ---------------------------------------------------------------------------
  // The normalised payload
  // ---------------------------------------------------------------------------

  /** Both providers' hourly lists are cut to this many entries. */
  const HoursKept: nat := 24

  datatype Current = Current(
    temp: Num,
    condition: string,
    icon: Option<string>,
    humidity: Num,
    windSpeed: Num,
    windDirection: Num,
    pressure: Option<Num>,
    visibility: Option<Num>,
    uvIndex: Option<Num>,
    feelsLike: Num)

  datatype Place = Place(name: string, country: string, lat: Num, lon: Num)

  /** One hour. `temp` is `None` when the provider's array had `null` or no value there. */
  datatype Hour = Hour(
    time: string,
    temp: Option<Num>,
    condition: string,
    icon: Option<string>,
    precipitation: Num)

  /** One day. The temperatures are `None` when the provider's array had `null` or no value. */
  datatype Day = Day(
    date: string,
    tempMax: Option<Num>,
    tempMin: Option<Num>,
    condition: string,
    icon: Option<string>,
    precipitation: Num,
    humidity: Option<Num>)

  datatype NormalisedWeather = NormalisedWeather(
    current: Current,
    location: Place,
    hourly: seq<Hour>,
    daily: seq<Day>)

  // ---------------------------------------------------------------------------
  // WeatherAPI.com bodies (primary provider)
  // ---------------------------------------------------------------------------

  datatype ApiCondition = ApiCondition(text: string, icon: string)

  datatype ApiNow = ApiNow(
    tempC: Num,
    condition: ApiCondition,
    humidity: Num,
    windKph: Num,
    windDegree: Num,
    pressureMb: Num,
    visKm: Num,
    uv: Num,
    feelslikeC: Num)

  datatype ApiLocation = ApiLocation(name: string, country: string, lat: Num, lon: Num)

  /** The body of `current.json`. */
  datatype ApiCurrentBody = ApiCurrentBody(current: ApiNow, location: ApiLocation)

  datatype ApiHour = ApiHour(time: string, tempC: Num, condition: ApiCondition, precipMm: Num)

  datatype ApiDaySummary = ApiDaySummary(
    maxtempC: Num,
    mintempC: Num,
    condition: ApiCondition,
    totalprecipMm: Num,
    avghumidity: Num)

  datatype ApiForecastDay = ApiForecastDay(date: string, day: ApiDaySummary, hour: seq<ApiHour>)

  /** The body of `forecast.json`: `forecast.forecastday`. */
  datatype ApiForecastBody = ApiForecastBody(forecastday: seq<ApiForecastDay>)

  // ---------------------------------------------------------------------------
  // Open-Meteo, geocoding and IP-lookup bodies (fallback provider)
  // ---------------------------------------------------------------------------

  datatype MeteoCurrent = MeteoCurrent(
    temperature: Num,
    weathercode: int,
    windspeed: Num,
    winddirection: Num)

  /** Parallel hourly arrays; an element is `None` where the provider sent `null`. */
  datatype MeteoHourly = MeteoHourly(
    time: seq<string>,
    temperature: seq<Option<Num>>,
    relativeHumidity: seq<Option<Num>>,
    precipitationProbability: seq<Option<Num>>,
    weathercode: seq<Option<int>>)

  /** Parallel daily arrays; an element is `None` where the provider sent `null`. */
  datatype MeteoDaily = MeteoDaily(
    time: seq<string>,
    temperatureMax: seq<Option<Num>>,
    temperatureMin: seq<Option<Num>>,
    precipitationProbabilityMax: seq<Option<Num>>,
    weathercode: seq<Option<int>>)

  datatype MeteoBody = MeteoBody(
    currentWeather: MeteoCurrent,
    hourly: MeteoHourly,
    daily: MeteoDaily)

  datatype GeoResult = GeoResult(latitude: Num, longitude: Num, name: string, country: string)

  /** The geocoding body; a missing `results` field reads like an empty list. */
  datatype GeoBody = GeoBody(results: seq<GeoResult>)

  datatype IpBody = IpBody(latitude: Num, longitude: Num, city: string, countryName: string)

  // ---------------------------------------------------------------------------
  // Network and runtime
  // ---------------------------------------------------------------------------

  /**
   * What a `fetch` yields: a rejected promise, or a response with its success flag and its
   * body, which is `None` when it is not JSON or lacks a field the route dereferences.
   */
  datatype Reply<T> = NetworkError | Reply(statusOk: bool, body: Option<T>)

  /** The outbound requests the route can make, in the order it makes them. */
  datatype Request =
    | ApiCurrent(query: string)
    | ApiForecast(query: string)
    | Geocode(name: string)
    | IpLocate
    | Forecast(lat: Num, lon: Num)
  {
    /** A request to the primary (keyed) provider. */
    predicate IsPrimary() {
      ApiCurrent? || ApiForecast?
    }
  }

  /**
   * The outside world as the route sees it during one request: the reply each upstream
   * service gives, the clock, `new Date(t).getTime()` and `Number(s)`.
   */
  datatype Env = Env(
    apiCurrent: string -> Reply<ApiCurrentBody>,
    apiForecast: string -> Reply<ApiForecastBody>,
    geocode: string -> Reply<GeoBody>,
    ipLocate: Reply<IpBody>,
    forecast: (Num, Num) -> Reply<MeteoBody>,
    now: int,
    timeOf: string -> int,
    numberOf: string -> Num)

  /** Why the fallback branch throws. */
  datatype Failure = NetworkFailure | MalformedBody | GeocodingFailed

  /** A value, or the exception that interrupted the computation. */
  datatype Result<T> = Done(value: T) | Threw(failure: Failure)

  /** A result together with the outbound requests made to reach it. */
  datatype Traced<T> = Traced(result: T, calls: seq<Request>)

  /** `fetch(url).then((r) => r.json())`: the status is not looked at. */
  function JsonOf<T>(reply: Reply<T>): (r: Result<T>)
    ensures r.Done? <==> reply.Reply? && reply.body.Some?
    ensures r.Done? ==> r.value == reply.body.value
    ensures reply.NetworkError? ==> r == Threw(NetworkFailure)
  {
    match reply
    case NetworkError => Threw(NetworkFailure)
    case Reply(_, body) => if body.Some? then Done(body.value) else Threw(MalformedBody)
  }

  /** `arr[i]` on a JSON array: `None` out of range (negative indices too) or where `null`. */
  function At<T>(s: seq<Option<T>>, i: int): (r: Option<T>)
    ensures r.Some? ==> 0 <= i < |s| && s[i] == r
    ensures 0 <= i < |s| ==> r == s[i]
  {
    if 0 <= i < |s| then s[i] else None
  }

  function Min(a: int, b: int): int {
    if a <= b then a else b
  }
}
