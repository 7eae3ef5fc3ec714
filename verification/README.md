# Weather route: a Dafny model

This project models the weather endpoint of a small web application (`route.ts`). A `GET`
request carries an optional `location`: a place name, a `lat,lon` pair, or nothing. The handler
answers with one normalised payload: current conditions, the place, up to 24 hours and the
daily forecast.

If an API key is configured, the handler first tries the keyed provider (WeatherAPI.com).
That attempt reports a tagged ok / not-ok outcome. When the primary is not configured or not
ok, the handler falls back to the keyless provider (Open-Meteo). The fallback first resolves
the location in one of three ways:

- it reads the coordinates straight from the string;
- it asks a geocoding service;
- it asks an IP-geolocation service.

It then fetches the forecast, picks the humidity of the current hour, and turns numeric WMO
weather codes into text. Any exception in the fallback becomes `{ error: "Unable to fetch
weather" }` with status 500, never a partial payload.

The model is pure: datatypes, functions and lemmas, one module per component.

| file | module | models |
|---|---|---|
| `wrappers.dfy` | `Wrappers` | `Option`, with `GetOr` as JavaScript's `??` |
| `weather_code.dfy` | `WeatherCode` | `wmoLookup` |
| `location_query.dfy` | `LocationQuery` | the coordinate regular expression, `split(",")`, the choice of resolution path |
| `schema.dfy` | `Schema` | the payload, the upstream bodies, the requests, the outside world (`Env`) |
| `open_meteo.dfy` | `OpenMeteo` | `useOpenMeteo` |
| `weather_api.dfy` | `WeatherApi` | `tryWeatherApi` |
| `route.dfy` | `Route` | `GET` |

The outside world is a value of type `Schema.Env`. It holds each upstream service's reply as
a function of the request, plus the clock, `new Date(t).getTime()` and `Number(s)`. Every
function that talks to the network returns a `Traced` value. That value pairs the result with
the list of outbound requests made to reach it. So "the primary provider is never called" and
"no geocoding request is made" are statements about that list.

Modelling decisions:

- **The key.** The key is an `Option<string>`, tested the way the route tests it: an empty
  environment variable counts as absent.
- **The regular expression.** `-?\d+(\.\d+)?,-?\d+(\.\d+)?` is not anchored. The model tests
  for a digit, a comma and a possibly negated digit side by side. A lemma proves this equals
  a reference reading of the regular expression's `test`, in both directions. The test also
  succeeds for text around a pair, such as "Paris 1,2".
- **The primary's query.** `locationQuery ?? "auto:ip"` replaces only an absent location, so
  the empty string reaches the primary provider as is. The query equals "auto:ip" when the
  location is absent, and also when the location is literally "auto:ip".

Two details of the code are easy to miss:

- The daily lists of both providers are never truncated. There is one entry per date the
  provider returns.
- The fallback's `feelsLike` is the current temperature, not null.

## Model

| member | source | states |
|---|---|---|
| `WeatherCode.WmoLookup` | route.ts:49-77 | total; the text is "Unknown" exactly for codes outside the 24 documented WMO codes, and never "Unknown" for a listed code |
| `WeatherCode.CodeText` | route.ts:76 | the text is "Unknown" exactly when the code is missing or null, or is outside the 24 documented codes |
| `WeatherCode.WmoClearAndCloudy` | route.ts:51-56 | codes 0, 1, 2, 3, 45, 48 give their exact table texts |
| `WeatherCode.WmoDrizzle` | route.ts:57-61 | codes 51, 53, 55, 56 and 57 give their exact table texts |
| `WeatherCode.WmoRain` | route.ts:62-64 | codes 61, 63 and 65 give their exact table texts, including 61 as "Rain: slight" |
| `WeatherCode.WmoFreezingAndSnow` | route.ts:65-69 | codes 66 to 75 give their exact table texts |
| `WeatherCode.WmoShowersAndStorms` | route.ts:70-74 | codes 80 to 99 give their exact table texts |
| `WeatherCode.WmoUnlistedCodes` | route.ts:76 | unlisted codes such as 999, 4 and -1 give "Unknown" |
| `LocationQuery.CoordinatePatternIsRegexTest` | route.ts:184 | the local coordinate test holds if and only if some substring fully matches `-?\d+(\.\d+)?,-?\d+(\.\d+)?` |
| `LocationQuery.HasCoordinatePattern` | route.ts:184 | a string passing the coordinate test contains a comma and has at least three characters; `CoordinatePatternIsRegexTest` proves the test is the regular expression's `test` |
| `LocationQuery.Split` | route.ts:186 | `split` always yields at least one field |
| `LocationQuery.JoinSplit` | route.ts:186 | the fields of `split`, joined with the separator, give the string back, and no field holds the separator |
| `LocationQuery.SplitJoin` | route.ts:186 | splitting the join of separator-free fields gives exactly those fields back |
| `LocationQuery.SplitAtSeparator` | route.ts:186 | a string containing the separator splits into at least two fields |
| `LocationQuery.Classify` | route.ts:184-207 | the IP path is taken exactly for an absent or empty location; the coordinate path only for a present string that contains a comma |
| `LocationQuery.ClassifyFollowsRegex` | route.ts:184-189 | coordinate path if and only if the regular expression matches; geocoding if and only if the string is non-empty and does not match |
| `LocationQuery.CoordinateFields` | route.ts:184-188 | on the coordinate path there are always a field 0 and a field 1 to read |
| `LocationQuery.UnanchoredMatch` | route.ts:184-186 | "Paris 1,2" takes the coordinate path with fields "Paris 1" and "2" |
| `LocationQuery.CoordinateScenario` | route.ts:184-188 | "40.0,-75.0" takes the coordinate path with fields "40.0" and "-75.0" |
| `OpenMeteo.FindIndex` | route.ts:214 | `findIndex` gives the first index whose element satisfies the test, and -1 exactly when none does |
| `OpenMeteo.CurrentIndex` | route.ts:213-214 | the index is -2 exactly when no hour is later than now, and -1 exactly when the first hour is. Otherwise, the hour after it is later than now and every hour up to it is not |
| `OpenMeteo.CurrentHumidity` | route.ts:221 | a humidity other than 0 is a reading the provider gave for an hour not later than now, just before a later hour; `HumidityOfElapsedHour` and `HumidityDefaultsToZero` fix which hour and when it is 0 |
| `OpenMeteo.HumidityOfElapsedHour` | route.ts:213-221 | when hour k+1 is the first one later than now, humidity is entry k, or 0 when that entry is missing or null |
| `OpenMeteo.HumidityDefaultsToZero` | route.ts:214-221 | humidity is 0 when no hour is later than now, and when the first hour already is |
| `OpenMeteo.HourlyFromMeteo` | route.ts:230-236 | min(24, n) entries. Entry i has timestamp i, the table text of code i, no icon, and precipitation probability i or 0 |
| `OpenMeteo.DailyFromMeteo` | route.ts:237-245 | one entry per upstream date, not truncated. Entry i has date i and the table text of code i. It has no icon and no humidity, and precipitation is probability i or 0 |
| `OpenMeteo.NormaliseMeteo` | route.ts:216-246 | the place is the resolved one. Feels-like equals the temperature, and the condition is the table text of the current code. Icon, pressure, visibility and UV index are null, and humidity is the current hour's. Hourly and daily are the per-entry lists of `HourlyFromMeteo` and `DailyFromMeteo` |
| `OpenMeteo.ResolveLocation` | route.ts:179-207 | no request on the coordinate path, which cannot fail. The geocoding path asks only the geocoder, the IP path only the IP service. "Geocoding failed" arises only on the geocoding path |
| `OpenMeteo.UseOpenMeteo` | route.ts:177-249 | the fallback branch never contacts the primary provider. A payload it builds has at most 24 hours, and exists only if the location resolved and the forecast reply arrived with a readable body |
| `OpenMeteo.CoordinatePathSkipsLookups` | route.ts:181-188 | a location matching the pattern leads to one request, the forecast for `Number` of fields 0 and 1. The place is "Unknown" with an empty country |
| `OpenMeteo.GeocodingWithoutResultsFails` | route.ts:189-199 | a name with zero geocoding results throws "Geocoding failed" after the geocoding request alone |
| `OpenMeteo.GeocodingUsesFirstResult` | route.ts:189-199 | with results, the first one's coordinates, name and country are used and the forecast is asked for them |
| `OpenMeteo.EmptyLocationUsesIp` | route.ts:200-206 | an absent or empty location asks the IP service first. Its city and country name become the place |
| `OpenMeteo.FallbackSucceedsWhenForecastReads` | route.ts:209-248 | a resolved place and a readable forecast body give the normalised payload, whatever the reply status |
| `OpenMeteo.FallbackFailsWhenForecastUnreadable` | route.ts:211 | a rejected forecast fetch throws a network failure, and an unreadable body throws, after the resolution requests and the forecast request |
| `WeatherApi.PrimaryQuery` | route.ts:115-118 | a present location, the empty string included, is the query as is; the query is "auto:ip" exactly for an absent location or the literal "auto:ip" |
| `WeatherApi.NormaliseApi` | route.ts:130-165 | no payload exactly when there is no forecast day. Otherwise hour i of the first min(24, n) hours of day 0 carries its time, temperature, condition text, icon and precipitation. Day i carries its date, extremes, condition, icon, total precipitation and average humidity, one per forecast day. The place is the provider's, and all ten current fields are the provider's current values |
| `WeatherApi.TryWeatherApi` | route.ts:111-171 | both requests are always made with the same query. The outcome is ok exactly when both replies arrived with ok status and readable bodies and there is a forecast day, and an ok payload is the one normalised from those two bodies |
| `WeatherApi.BadStatusIsNotOk` | route.ts:125 | a non-ok status on either request gives "not ok" |
| `WeatherApi.PrimaryShape` | route.ts:149-164 | an ok outcome has min(24, n) ≤ 24 hours from the first day and one daily entry per forecast day |
| `Schema.JsonOf` | route.ts:211 | the body is used whatever the status. A rejected fetch or an unreadable body throws |
| `Schema.At` | route.ts:221 | an array read is absent out of range (negative indices included), otherwise the element |
| `Route.Answer` | route.ts:101-104 | an exception, and only an exception, becomes `{ error: "Unable to fetch weather" }` with status 500; otherwise the payload itself |
| `Route.KeyConfigured` | route.ts:89 | the key counts as configured exactly when it is neither unset nor the empty string, JavaScript's truthiness for an environment value |
| `Route.HandleGet` | route.ts:83-105 | an error answer is always the generic one. A payload answer is exactly an ok primary's payload (key configured) or the fallback's. Without a key, no request goes to the primary |
| `Route.NoKeyUsesFallbackOnly` | route.ts:89-98 | without a key (unset or empty), the answer and the requests are those of the fallback branch alone |
| `Route.PrimaryOkIsFinal` | route.ts:89-92 | an ok primary's payload is the answer, and its two requests are the only ones made |
| `Route.PrimaryNotOkFallsBack` | route.ts:93-95 | a not-ok primary is followed by the fallback, whose answer is returned |
| `Route.EmptyKeyIsNoKey` | route.ts:89 | an empty key behaves exactly as a missing one |
| `Route.EmptyLocationReachesPrimaryAsIs` | route.ts:115-118 | an empty location is sent to the primary as the empty query. If the primary then fails, the fallback locates by IP |
| `Route.CoordinateQueryScenario` | route.ts:184-188 | "40.0,-75.0" without a key makes one forecast request for `Number("40.0")` and `Number("-75.0")`, and the place is "Unknown" there |
| `Route.UnknownNameIsFatal` | route.ts:195 | an unknown name with no usable primary is answered with the generic error, never a payload |
| `Route.NoLocationScenario` | route.ts:200-206 | no location and no key asks the IP service first, and the payload names its city and country |

## Left out

- Network I/O is not modelled: `fetch`, URL building and `encodeURIComponent`. Each reply is a
  function of the request in `Schema.Env`. Requests are recorded by their parameters, not by
  their URLs.
- `Promise.all` and `async`/`await` are not modelled. The primary's two requests are always
  both issued, and the trace lists them in source order.
- JSON parsing is not modelled. A body is either fully shaped or absent. Absent stands for
  text that is not JSON, or a body missing a field whose access throws. A field that is
  missing without throwing (for example `ipRes.latitude` coming back `undefined`) is not
  represented.
- JSON `null` and an out-of-range array read (`undefined`) are both `None`. The two differ
  only in how the payload is serialised.
- Numbers are real values carried through unchanged. `Number(s)` is the function
  `Env.numberOf`. NaN and other floating-point edge cases are not modelled.
- Date parsing is not modelled. `new Date(t).getTime()` is the integer function `Env.timeOf`,
  and the clock is `Env.now`. An unparsable timestamp (NaN, which is never "later") has no
  counterpart beyond a value not later than now.
- Weather codes are integers. A fractional or `null` code in `current_weather` is not
  represented. Such a code would read as "Unknown".
- Framework plumbing is not modelled: `NextRequest`/`NextResponse`, parsing the request URL,
  the `console.error` diagnostic, and the 200 status of a successful answer.
- The `process.env` read is not modelled. The key is a parameter of `Route.HandleGet`.
