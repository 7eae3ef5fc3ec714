/**
 * The keyed primary branch (`tryWeatherApi`): two requests, and an explicit ok / not-ok
 * outcome. Every failure, whether a status, a body or a field access, becomes "not ok".
 */
module WeatherApi {
  import opened Wrappers
  import opened Schema

  /** The query the provider resolves itself to the caller's network origin. */
  const AutoIp: string := "auto:ip"

  /** `{ ok: true, value } | { ok: false }` */
  datatype Outcome = PrimaryOk(value: NormalisedWeather) | PrimaryNotOk

  /** `locationQuery ?? "auto:ip"`: only an absent location is replaced; "" is passed as is. */
  function PrimaryQuery(location: Option<string>): (query: string)
    ensures location.Some? ==> query == location.value
    ensures query == AutoIp <==> location.None? || location == Some(AutoIp)
  {
    location.GetOr(AutoIp)
  }

  /** An hour of `forecastday[0].hour`. */
  function HourFromApi(h: ApiHour): Hour {
    Hour(h.time, Some(h.tempC), h.condition.text, Some(h.condition.icon), h.precipMm)
  }

  /** A day of `forecastday`. */
  function DayFromApi(d: ApiForecastDay): Day {
    Day(d.date, Some(d.day.maxtempC), Some(d.day.mintempC), d.day.condition.text,
        Some(d.day.condition.icon), d.day.totalprecipMm, Some(d.day.avghumidity))
  }

  /**
   * The payload built from the two bodies. `forecastday[0].hour` throws when there is no
   * forecast day, which is `None` here.
   */
  function NormaliseApi(cur: ApiCurrentBody, fc: ApiForecastBody): (w: Option<NormalisedWeather>)
    ensures w.None? <==> |fc.forecastday| == 0
    ensures w.Some? ==>
              var hours := fc.forecastday[0].hour;
              && |w.value.hourly| == Min(HoursKept, |hours|)
              && forall i :: 0 <= i < |w.value.hourly| ==>
                   && w.value.hourly[i].time == hours[i].time
                   && w.value.hourly[i].temp == Some(hours[i].tempC)
                   && w.value.hourly[i].condition == hours[i].condition.text
                   && w.value.hourly[i].icon == Some(hours[i].condition.icon)
                   && w.value.hourly[i].precipitation == hours[i].precipMm
    ensures w.Some? ==>
              && |w.value.daily| == |fc.forecastday|
              && forall i :: 0 <= i < |w.value.daily| ==>
                   var d := fc.forecastday[i];
                   && w.value.daily[i].date == d.date
                   && w.value.daily[i].tempMax == Some(d.day.maxtempC)
                   && w.value.daily[i].tempMin == Some(d.day.mintempC)
                   && w.value.daily[i].condition == d.day.condition.text
                   && w.value.daily[i].icon == Some(d.day.condition.icon)
                   && w.value.daily[i].precipitation == d.day.totalprecipMm
                   && w.value.daily[i].humidity == Some(d.day.avghumidity)
    ensures w.Some? ==>
              w.value.location == Place(cur.location.name, cur.location.country,
                                        cur.location.lat, cur.location.lon)
    ensures w.Some? ==>
              var c, now := cur.current, w.value.current;
              && now.temp == c.tempC
              && now.condition == c.condition.text
              && now.icon == Some(c.condition.icon)
              && now.humidity == c.humidity
              && now.windSpeed == c.windKph
              && now.windDirection == c.windDegree
              && now.pressure == Some(c.pressureMb)
              && now.visibility == Some(c.visKm)
              && now.uvIndex == Some(c.uv)
              && now.feelsLike == c.feelslikeC
  {
    if |fc.forecastday| == 0 then None
    else
      var c := cur.current;
      var hours := fc.forecastday[0].hour;
      var n := Min(HoursKept, |hours|);
      Some(NormalisedWeather(
        Current(c.tempC, c.condition.text, Some(c.condition.icon), c.humidity, c.windKph,
                c.windDegree, Some(c.pressureMb), Some(c.visKm), Some(c.uv), c.feelslikeC),
        Place(cur.location.name, cur.location.country, cur.location.lat, cur.location.lon),
        seq(n, i requires 0 <= i < n => HourFromApi(hours[i])),
        seq(|fc.forecastday|, i requires 0 <= i < |fc.forecastday| => DayFromApi(fc.forecastday[i]))))
  }

  /** Both replies arrived, both statuses are ok and both bodies read. */
  predicate RepliesUsable(cur: Reply<ApiCurrentBody>, fc: Reply<ApiForecastBody>) {
    cur.Reply? && fc.Reply? && cur.statusOk && fc.statusOk && cur.body.Some? && fc.body.Some?
  }

  /**
   * `tryWeatherApi`: both requests are always made, with the same query; the outcome is ok
   * exactly when both replies are usable and there is a forecast day. It never throws.
   */
  function TryWeatherApi(env: Env, location: Option<string>): (r: Traced<Outcome>)
    ensures r.calls == [ApiCurrent(PrimaryQuery(location)), ApiForecast(PrimaryQuery(location))]
    ensures var cur, fc := env.apiCurrent(PrimaryQuery(location)), env.apiForecast(PrimaryQuery(location));
            r.result.PrimaryOk? <==> RepliesUsable(cur, fc) && |fc.body.value.forecastday| > 0
    ensures var q := PrimaryQuery(location);
            r.result.PrimaryOk? ==>
              NormaliseApi(env.apiCurrent(q).body.value, env.apiForecast(q).body.value)
                == Some(r.result.value)
  {
    var query := PrimaryQuery(location);
    var cur, fc := env.apiCurrent(query), env.apiForecast(query);
    var outcome :=
      if !RepliesUsable(cur, fc) then PrimaryNotOk
      else match NormaliseApi(cur.body.value, fc.body.value)
        case None => PrimaryNotOk
        case Some(w) => PrimaryOk(w);
    Traced(outcome, [ApiCurrent(query), ApiForecast(query)])
  }

  /** A failed status on either request means "not ok", whatever the bodies hold. */
  lemma BadStatusIsNotOk(env: Env, location: Option<string>)
    requires var q := PrimaryQuery(location);
             (env.apiCurrent(q).Reply? && !env.apiCurrent(q).statusOk)
             || (env.apiForecast(q).Reply? && !env.apiForecast(q).statusOk)
    ensures TryWeatherApi(env, location).result == PrimaryNotOk
  {
  }

  /** On success the hourly list is the first day's first 24 hours and the daily list has every day. */
  lemma PrimaryShape(env: Env, location: Option<string>)
    requires TryWeatherApi(env, location).result.PrimaryOk?
    ensures var w := TryWeatherApi(env, location).result.value;
            var fd := env.apiForecast(PrimaryQuery(location)).body.value.forecastday;
            && |fd| > 0
            && |w.hourly| == Min(HoursKept, |fd[0].hour|) <= HoursKept
            && |w.daily| == |fd|
  {
  }
}
