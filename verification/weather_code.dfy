/**
 * The fixed lookup from the numeric weather codes of the fallback provider (Open-Meteo, which
 * uses a subset of WMO code table 4677) to short English text, with "Unknown" as default.
 */
module WeatherCode {
  import opened Wrappers

  /** The literal returned for every code the table does not list. */
  const Unknown: string := "Unknown"

  /** The WMO codes the table is meant to cover, listed independently of the table below. */
  const DocumentedCodes: set<int> :=
    {0, 1, 2, 3, 45, 48, 51, 53, 55, 56, 57, 61, 63, 65, 66, 67, 71, 73, 75, 80, 81, 82, 95, 99}

  /**
   * `wmoLookup`: the route's fixed record of 24 codes with "Unknown" as the default. It is
   * total, and the text is "Unknown" exactly for the codes outside the table.
   */
  function WmoLookup(code: int): (text: string)
    ensures text != Unknown <==> code in DocumentedCodes
  {
    match code
    case 0 => "Clear"
    case 1 => "Mainly clear"
    case 2 => "Partly cloudy"
    case 3 => "Overcast"
    case 45 => "Fog"
    case 48 => "Depositing rime fog"
    case 51 => "Light drizzle"
    case 53 => "Drizzle"
    case 55 => "Dense drizzle"
    case 56 => "Freezing drizzle"
    case 57 => "Dense freezing drizzle"
    case 61 => "Rain: slight"
    case 63 => "Rain"
    case 65 => "Heavy rain"
    case 66 => "Freezing rain"
    case 67 => "Heavy freezing rain"
    case 71 => "Snow fall: slight"
    case 73 => "Snow fall"
    case 75 => "Heavy snow fall"
    case 80 => "Rain showers: slight"
    case 81 => "Rain showers"
    case 82 => "Violent rain showers"
    case 95 => "Thunderstorm"
    case 99 => "Thunderstorm with hail"
    case _ => Unknown
  }

  /**
   * `wmoLookup(arr[i])` where `arr[i]` may be `undefined` or `null`: the record has no such
   * key, so the text is "Unknown".
   */
  function CodeText(code: Option<int>): (text: string)
    ensures text == Unknown <==> code.None? || code.value !in DocumentedCodes
  {
    match code
    case None => Unknown
    case Some(c) => WmoLookup(c)
  }

  /** Clear sky, cloud cover and fog (codes 0-48). */
  lemma WmoClearAndCloudy()
    ensures WmoLookup(0) == "Clear"
    ensures WmoLookup(1) == "Mainly clear"
    ensures WmoLookup(2) == "Partly cloudy"
    ensures WmoLookup(3) == "Overcast"
    ensures WmoLookup(45) == "Fog"
    ensures WmoLookup(48) == "Depositing rime fog"
  {
  }

  /** Drizzle (codes 51-57). */
  lemma WmoDrizzle()
    ensures WmoLookup(51) == "Light drizzle"
    ensures WmoLookup(53) == "Drizzle"
    ensures WmoLookup(55) == "Dense drizzle"
    ensures WmoLookup(56) == "Freezing drizzle"
    ensures WmoLookup(57) == "Dense freezing drizzle"
  {
  }

  /** Rain (codes 61-65). */
  lemma WmoRain()
    ensures WmoLookup(61) == "Rain: slight"
    ensures WmoLookup(63) == "Rain"
    ensures WmoLookup(65) == "Heavy rain"
  {
  }

  /** Freezing rain and snow fall (codes 66-75). */
  lemma WmoFreezingAndSnow()
    ensures WmoLookup(66) == "Freezing rain"
    ensures WmoLookup(67) == "Heavy freezing rain"
    ensures WmoLookup(71) == "Snow fall: slight"
    ensures WmoLookup(73) == "Snow fall"
    ensures WmoLookup(75) == "Heavy snow fall"
  {
  }

  /** Rain showers and thunderstorms (codes 80-99). */
  lemma WmoShowersAndStorms()
    ensures WmoLookup(80) == "Rain showers: slight"
    ensures WmoLookup(81) == "Rain showers"
    ensures WmoLookup(82) == "Violent rain showers"
    ensures WmoLookup(95) == "Thunderstorm"
    ensures WmoLookup(99) == "Thunderstorm with hail"
  {
  }

  /** Codes outside the table, such as 999 or the unlisted 4, fall back to "Unknown". */
  lemma WmoUnlistedCodes()
    ensures WmoLookup(999) == Unknown && WmoLookup(4) == Unknown && WmoLookup(-1) == Unknown
  {
  }
}
