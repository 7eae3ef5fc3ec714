/**
 * The `GET` handler: choose the provider, fall back when the primary is not configured or
 * not ok, and turn any exception of the fallback into the generic error response.
 */
module Route {
  import opened Wrappers
  import opened Schema
  import opened LocationQuery
  import opened OpenMeteo
  import opened WeatherApi

  const FatalStatus: int := 500
  const FatalMessage: string := "Unable to fetch weather"

  /** The JSON the handler answers with: the payload, or `{ error }` with a status. */
  datatype Response = Payload(data: NormalisedWeather) | ErrorBody(status: int, error: string)

  /** `if (WEATHER_API_KEY)`: the variable is set and is not the empty string. */
  predicate KeyConfigured(apiKey: Option<string>)
    ensures KeyConfigured(apiKey) <==> apiKey != None && apiKey != Some("")
  {
    apiKey.Some? && apiKey.value != ""
  }

  /** The `catch` at the handler's boundary: an exception becomes the generic error, status 500. */
  function Answer(r: Result<NormalisedWeather>): (response: Response)
    ensures response.ErrorBody? <==> r.Threw?
    ensures response.ErrorBody? ==> response.status == FatalStatus && response.error == FatalMessage
    ensures r.Done? ==> response.data == r.value
  {
    match r
    case Done(w) => Payload(w)
    case Threw(_) => ErrorBody(FatalStatus, FatalMessage)
  }

  /**
   * `GET` with the `location` query parameter (`None` when absent). The answer is a whole
   * payload from exactly one provider, or the generic error; without a key no request goes
   * to the primary provider.
   */
  function HandleGet(apiKey: Option<string>, env: Env, location: Option<string>): (r: Traced<Response>)
    ensures r.result.ErrorBody? ==> r.result == ErrorBody(FatalStatus, FatalMessage)
    ensures r.result.Payload? ==>
              || (KeyConfigured(apiKey) && TryWeatherApi(env, location).result == PrimaryOk(r.result.data))
              || UseOpenMeteo(env, location).result == Done(r.result.data)
    ensures !KeyConfigured(apiKey) ==> forall k :: 0 <= k < |r.calls| ==> !r.calls[k].IsPrimary()
  {
    if KeyConfigured(apiKey) then
      var primary := TryWeatherApi(env, location);
      match primary.result
      case PrimaryOk(w) => Traced(Payload(w), primary.calls)
      case PrimaryNotOk =>
        var fallback := UseOpenMeteo(env, location);
        Traced(Answer(fallback.result), primary.calls + fallback.calls)
    else
      var fallback := UseOpenMeteo(env, location);
      Traced(Answer(fallback.result), fallback.calls)
  }

  // ---------------------------------------------------------------------------
  // Provider selection
  // ---------------------------------------------------------------------------

  /** Without a key (unset or empty) the handler is the fallback branch and nothing else. */
  lemma NoKeyUsesFallbackOnly(apiKey: Option<string>, env: Env, location: Option<string>)
    requires !KeyConfigured(apiKey)
    ensures var fallback := UseOpenMeteo(env, location);
            HandleGet(apiKey, env, location) == Traced(Answer(fallback.result), fallback.calls)
  {
  }

  /**
   * When the primary is ok its payload is the answer, and the only requests made are the
   * primary's two: the fallback is not run.
   */
  lemma PrimaryOkIsFinal(apiKey: Option<string>, env: Env, location: Option<string>)
    requires KeyConfigured(apiKey) && TryWeatherApi(env, location).result.PrimaryOk?
    ensures var q := PrimaryQuery(location);
            var r := HandleGet(apiKey, env, location);
            && r.result == Payload(TryWeatherApi(env, location).result.value)
            && r.calls == [ApiCurrent(q), ApiForecast(q)]
            && forall k :: 0 <= k < |r.calls| ==> r.calls[k].IsPrimary()
  {
  }

  /**
   * When the primary is not ok the answer is the fallback's, after the primary's two
   * requests.
   */
  lemma PrimaryNotOkFallsBack(apiKey: Option<string>, env: Env, location: Option<string>)
    requires KeyConfigured(apiKey) && TryWeatherApi(env, location).result == PrimaryNotOk
    ensures var q := PrimaryQuery(location);
            var fallback := UseOpenMeteo(env, location);
            var r := HandleGet(apiKey, env, location);
            && r.result == Answer(fallback.result)
            && r.calls == [ApiCurrent(q), ApiForecast(q)] + fallback.calls
  {
  }

  /** An empty key behaves exactly like a missing one. */
  lemma EmptyKeyIsNoKey(env: Env, location: Option<string>)
    ensures HandleGet(Some(""), env, location) == HandleGet(None, env, location)
  {
  }

  /**
   * An empty location goes to the primary as the empty query, not as "auto:ip"; if the
   * primary then fails, the fallback treats it as absent and locates by IP.
   */
  lemma EmptyLocationReachesPrimaryAsIs(apiKey: Option<string>, env: Env)
    requires KeyConfigured(apiKey)
    ensures var r := HandleGet(apiKey, env, Some(""));
            |r.calls| >= 2 && r.calls[0] == ApiCurrent("") && r.calls[1] == ApiForecast("")
    ensures TryWeatherApi(env, Some("")).result == PrimaryNotOk ==>
              HandleGet(apiKey, env, Some("")).calls[2] == IpLocate
  {
  }

  // ---------------------------------------------------------------------------
  // Scenarios
  // ---------------------------------------------------------------------------

  /**
   * "40.0,-75.0" without a key: no geocoding and no IP lookup, one forecast request for the
   * two numbers, and the payload's place is "Unknown" at those coordinates.
   */
  lemma CoordinateQueryScenario(env: Env)
    ensures var lat, lon := env.numberOf("40.0"), env.numberOf("-75.0");
            var r := HandleGet(None, env, Some("40.0,-75.0"));
            && r.calls == [Forecast(lat, lon)]
            && (r.result.Payload? ==> r.result.data.location == Place("Unknown", "", lat, lon))
  {
    CoordinateScenario();
    ClassifyFollowsRegex(Some("40.0,-75.0"));
    CoordinatePathSkipsLookups(env, "40.0,-75.0");
  }

  /**
   * A name the geocoding service does not know, with the primary unavailable, is answered
   * with the generic error and no payload.
   */
  lemma UnknownNameIsFatal(apiKey: Option<string>, env: Env, s: string)
    requires s != "" && !RegexTest(s)
    requires env.geocode(s).Reply? && env.geocode(s).body == Some(GeoBody([]))
    requires !KeyConfigured(apiKey) || TryWeatherApi(env, Some(s)).result == PrimaryNotOk
    ensures HandleGet(apiKey, env, Some(s)).result == ErrorBody(FatalStatus, FatalMessage)
  {
    GeocodingWithoutResultsFails(env, s);
  }

  /**
   * No location and no key: the IP service is asked first, and the payload names its city
   * and country.
   */
  lemma NoLocationScenario(env: Env, location: Option<string>, ip: IpBody)
    requires location == None || location == Some("")
    requires env.ipLocate.Reply? && env.ipLocate.body == Some(ip)
    ensures var r := HandleGet(None, env, location);
            && r.calls == [IpLocate, Forecast(ip.latitude, ip.longitude)]
            && (r.result.Payload? ==>
                  r.result.data.location == Place(ip.city, ip.countryName, ip.latitude, ip.longitude))
  {
    EmptyLocationUsesIp(env, location, ip);
  }
}
