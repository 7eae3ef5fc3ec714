/**
 * The keyless fallback branch (`useOpenMeteo`): resolve the location to coordinates, fetch
 * the forecast, pick the current hour's humidity, and normalise the reply.
 */
module OpenMeteo {
  import opened Wrappers
  import opened Schema
  import opened WeatherCode
  import opened LocationQuery

  /** Placeholders the coordinate path leaves in the payload. */
  const UnknownName: string := "Unknown"
  const NoCountry: string := ""

  // ---------------------------------------------------------------------------
  // Current hour
  // ---------------------------------------------------------------------------

  /** `Array.prototype.findIndex`: the first index whose element satisfies `p`, or -1. */
  function FindIndex<T>(s: seq<T>, p: T -> bool): (r: int)
    ensures -1 <= r < |s|
    ensures r == -1 <==> forall j :: 0 <= j < |s| ==> !p(s[j])
    ensures 0 <= r ==> p(s[r]) && forall j :: 0 <= j < r ==> !p(s[j])
  {
    if |s| == 0 then -1
    else if p(s[0]) then 0
    else
      var r := FindIndex(s[1..], p);
      assert forall j :: 1 <= j < |s| ==> s[j] == s[1..][j - 1];
      if r == -1 then -1 else r + 1
  }

  /**
   * `currentIdx`: one before the first hour strictly later than now. It is -2 when no hour is
   * later, -1 when the first hour already is, and otherwise the last hour not later than now
   * before the first later one.
   */
  function CurrentIndex(times: seq<string>, timeOf: string -> int, now: int): (k: int)
    ensures -2 <= k < |times| - 1
    ensures k == -2 <==> forall j :: 0 <= j < |times| ==> timeOf(times[j]) <= now
    ensures k == -1 <==> |times| > 0 && timeOf(times[0]) > now
    ensures 0 <= k ==>
              && timeOf(times[k + 1]) > now
              && forall j :: 0 <= j <= k ==> timeOf(times[j]) <= now
  {
    FindIndex(times, t => timeOf(t) > now) - 1
  }

  /**
   * `relative_humidity_2m[currentIdx] ?? 0`. A humidity other than 0 is a reading the provider
   * gave for an hour not later than now, the one just before the first later hour.
   */
  function CurrentHumidity(hourly: MeteoHourly, timeOf: string -> int, now: int): (h: Num)
    ensures h != 0.0 ==>
              exists k :: 0 <= k < |hourly.relativeHumidity| && hourly.relativeHumidity[k] == Some(h)
                          && k + 1 < |hourly.time| && timeOf(hourly.time[k]) <= now
                          && timeOf(hourly.time[k + 1]) > now
  {
    At(hourly.relativeHumidity, CurrentIndex(hourly.time, timeOf, now)).GetOr(0.0)
  }

  /**
   * The humidity is that of the last hour not later than now, taken just before the first
   * later hour, when the provider has a value there.
   */
  lemma HumidityOfElapsedHour(hourly: MeteoHourly, timeOf: string -> int, now: int, k: nat)
    requires k + 1 < |hourly.time|
    requires forall j :: 0 <= j <= k ==> timeOf(hourly.time[j]) <= now
    requires timeOf(hourly.time[k + 1]) > now
    ensures CurrentHumidity(hourly, timeOf, now) ==
              if k < |hourly.relativeHumidity| && hourly.relativeHumidity[k].Some?
              then hourly.relativeHumidity[k].value else 0.0
  {
  }

  /**
   * The humidity is 0 when no hour is later than now (the index is then -2) and when the first
   * hour is already later (the index is then -1).
   */
  lemma HumidityDefaultsToZero(hourly: MeteoHourly, timeOf: string -> int, now: int)
    requires (forall j :: 0 <= j < |hourly.time| ==> timeOf(hourly.time[j]) <= now)
             || (|hourly.time| > 0 && timeOf(hourly.time[0]) > now)
    ensures CurrentHumidity(hourly, timeOf, now) == 0.0
  {
  }

  // ---------------------------------------------------------------------------
  // Normalisation
  // ---------------------------------------------------------------------------

  /** `hourly.time.slice(0, 24).map((time, i) => ...)`. */
  function HourlyFromMeteo(h: MeteoHourly): (hours: seq<Hour>)
    ensures |hours| == Min(HoursKept, |h.time|)
    ensures forall i :: 0 <= i < |hours| ==>
              && hours[i].time == h.time[i]
              && hours[i].temp == At(h.temperature, i)
              && hours[i].condition == CodeText(At(h.weathercode, i))
              && hours[i].icon == None
              && hours[i].precipitation == At(h.precipitationProbability, i).GetOr(0.0)
  {
    var n := Min(HoursKept, |h.time|);
    seq(n, i requires 0 <= i < n =>
      Hour(h.time[i], At(h.temperature, i), CodeText(At(h.weathercode, i)), None,
           At(h.precipitationProbability, i).GetOr(0.0)))
  }

  /** `daily.time.map((date, i) => ...)`: one day per date, not truncated. */
  function DailyFromMeteo(d: MeteoDaily): (days: seq<Day>)
    ensures |days| == |d.time|
    ensures forall i :: 0 <= i < |days| ==>
              && days[i].date == d.time[i]
              && days[i].tempMax == At(d.temperatureMax, i)
              && days[i].tempMin == At(d.temperatureMin, i)
              && days[i].condition == CodeText(At(d.weathercode, i))
              && days[i].icon == None
              && days[i].precipitation == At(d.precipitationProbabilityMax, i).GetOr(0.0)
              && days[i].humidity == None
  {
    seq(|d.time|, i requires 0 <= i < |d.time| =>
      Day(d.time[i], At(d.temperatureMax, i), At(d.temperatureMin, i),
          CodeText(At(d.weathercode, i)), None,
          At(d.precipitationProbabilityMax, i).GetOr(0.0), None))
  }

  /** The payload built from a forecast body for an already resolved place. */
  function NormaliseMeteo(m: MeteoBody, place: Place, timeOf: string -> int, now: int)
    : (w: NormalisedWeather)
    ensures w.location == place
    ensures w.current.temp == m.currentWeather.temperature == w.current.feelsLike
    ensures w.current.condition == WmoLookup(m.currentWeather.weathercode)
    ensures w.current.icon.None? && w.current.pressure.None?
    ensures w.current.visibility.None? && w.current.uvIndex.None?
    ensures w.current.humidity == CurrentHumidity(m.hourly, timeOf, now)
    ensures w.current.windSpeed == m.currentWeather.windspeed
    ensures w.current.windDirection == m.currentWeather.winddirection
    ensures |w.hourly| <= HoursKept && |w.daily| == |m.daily.time|
    ensures w.hourly == HourlyFromMeteo(m.hourly) && w.daily == DailyFromMeteo(m.daily)
  {
    var c := m.currentWeather;
    NormalisedWeather(
      Current(c.temperature, WmoLookup(c.weathercode), None, CurrentHumidity(m.hourly, timeOf, now),
              c.windspeed, c.winddirection, None, None, None, c.temperature),
      place,
      HourlyFromMeteo(m.hourly),
      DailyFromMeteo(m.daily))
  }

  // ---------------------------------------------------------------------------
  // Location resolution and the whole branch
  // ---------------------------------------------------------------------------

  /**
   * Step 1 of the branch: coordinates read from the string, the first geocoding result, or
   * the IP lookup. Geocoding with no result throws "Geocoding failed".
   */
  function ResolveLocation(env: Env, location: Option<string>): (r: Traced<Result<Place>>)
    ensures Classify(location) == Coordinates ==> r.calls == [] && r.result.Done?
    ensures Classify(location) == Geocoding ==> r.calls == [Geocode(location.value)]
    ensures Classify(location) == IpLookup ==> r.calls == [IpLocate]
    ensures r.result == Threw(GeocodingFailed) ==> Classify(location) == Geocoding
  {
    match Classify(location)
    case Coordinates =>
      CoordinateFields(location.value);
      var fields := Split(location.value, ',');
      Traced(Done(Place(UnknownName, NoCountry, env.numberOf(fields[0]), env.numberOf(fields[1]))), [])
    case Geocoding =>
      var result := match JsonOf(env.geocode(location.value))
        case Threw(f) => Threw(f)
        case Done(geo) =>
          if |geo.results| == 0 then Threw(GeocodingFailed)
          else
            var g := geo.results[0];
            Done(Place(g.name, g.country, g.latitude, g.longitude));
      Traced(result, [Geocode(location.value)])
    case IpLookup =>
      var result := match JsonOf(env.ipLocate)
        case Threw(f) => Threw(f)
        case Done(ip) => Done(Place(ip.city, ip.countryName, ip.latitude, ip.longitude));
      Traced(result, [IpLocate])
  }

  /**
   * `useOpenMeteo`: resolve the place, fetch its forecast, normalise. Every exception
   * propagates; the requests made up to the failure are kept in the trace.
   */
  function UseOpenMeteo(env: Env, location: Option<string>): (r: Traced<Result<NormalisedWeather>>)
    ensures forall k :: 0 <= k < |r.calls| ==> !r.calls[k].IsPrimary()
    ensures r.result.Done? ==> |r.result.value.hourly| <= HoursKept
    ensures r.result.Done? ==>
              && ResolveLocation(env, location).result.Done?
              && var p := ResolveLocation(env, location).result.value;
                 env.forecast(p.lat, p.lon).Reply? && env.forecast(p.lat, p.lon).body.Some?
  {
    var resolved := ResolveLocation(env, location);
    match resolved.result
    case Threw(f) => Traced(Threw(f), resolved.calls)
    case Done(place) =>
      var result := match JsonOf(env.forecast(place.lat, place.lon))
        case Threw(f) => Threw(f)
        case Done(m) => Done(NormaliseMeteo(m, place, env.timeOf, env.now));
      Traced(result, resolved.calls + [Forecast(place.lat, place.lon)])
  }

  // ---------------------------------------------------------------------------
  // Properties of the three paths
  // ---------------------------------------------------------------------------

  /**
   * A location with a coordinate pair anywhere in it is neither geocoded nor looked up by IP:
   * the only request is the forecast for the numbers in the first two comma-separated fields,
   * and the place is named "Unknown" with an empty country.
   */
  lemma CoordinatePathSkipsLookups(env: Env, s: string)
    requires RegexTest(s)
    ensures |Split(s, ',')| >= 2
    ensures var lat, lon := env.numberOf(Split(s, ',')[0]), env.numberOf(Split(s, ',')[1]);
            var r := UseOpenMeteo(env, Some(s));
            && r.calls == [Forecast(lat, lon)]
            && (r.result.Done? ==> r.result.value.location == Place(UnknownName, NoCountry, lat, lon))
  {
    ClassifyFollowsRegex(Some(s));
    CoordinateFields(s);
  }

  /** A name that the geocoding service does not know makes the branch throw "Geocoding failed". */
  lemma GeocodingWithoutResultsFails(env: Env, s: string)
    requires s != "" && !RegexTest(s)
    requires env.geocode(s).Reply? && env.geocode(s).body == Some(GeoBody([]))
    ensures UseOpenMeteo(env, Some(s)) == Traced(Threw(GeocodingFailed), [Geocode(s)])
  {
    ClassifyFollowsRegex(Some(s));
  }

  /** A known name takes coordinates, name and country from the first geocoding result. */
  lemma GeocodingUsesFirstResult(env: Env, s: string, geo: GeoBody)
    requires s != "" && !RegexTest(s)
    requires env.geocode(s).Reply? && env.geocode(s).body == Some(geo) && |geo.results| > 0
    ensures var g := geo.results[0];
            var r := UseOpenMeteo(env, Some(s));
            && r.calls == [Geocode(s), Forecast(g.latitude, g.longitude)]
            && (r.result.Done? ==>
                  r.result.value.location == Place(g.name, g.country, g.latitude, g.longitude))
  {
    ClassifyFollowsRegex(Some(s));
  }

  /**
   * An absent or empty location is located by IP: the IP service is asked first and its city
   * and country name end up in the payload.
   */
  lemma EmptyLocationUsesIp(env: Env, location: Option<string>, ip: IpBody)
    requires location == None || location == Some("")
    requires env.ipLocate.Reply? && env.ipLocate.body == Some(ip)
    ensures var r := UseOpenMeteo(env, location);
            && r.calls == [IpLocate, Forecast(ip.latitude, ip.longitude)]
            && (r.result.Done? ==>
                  r.result.value.location == Place(ip.city, ip.countryName, ip.latitude, ip.longitude))
  {
  }

  /**
   * A resolved place and a readable forecast body give the normalised payload, whatever the
   * reply's status. With `UseOpenMeteo`'s contract (success needs both) and
   * `FallbackFailsWhenForecastUnreadable`, the branch succeeds exactly then.
   */
  lemma FallbackSucceedsWhenForecastReads(env: Env, location: Option<string>, place: Place, m: MeteoBody)
    requires ResolveLocation(env, location).result == Done(place)
    requires env.forecast(place.lat, place.lon).Reply?
    requires env.forecast(place.lat, place.lon).body == Some(m)
    ensures UseOpenMeteo(env, location).result == Done(NormaliseMeteo(m, place, env.timeOf, env.now))
  {
  }

  /** A rejected forecast fetch or an unreadable forecast body makes the branch throw. */
  lemma FallbackFailsWhenForecastUnreadable(env: Env, location: Option<string>, place: Place)
    requires ResolveLocation(env, location).result == Done(place)
    requires env.forecast(place.lat, place.lon).NetworkError?
             || env.forecast(place.lat, place.lon).body.None?
    ensures UseOpenMeteo(env, location).result ==
              Threw(if env.forecast(place.lat, place.lon).NetworkError? then NetworkFailure
                    else MalformedBody)
    ensures UseOpenMeteo(env, location).calls ==
              ResolveLocation(env, location).calls + [Forecast(place.lat, place.lon)]
  {
  }
}
