/**
 * OpenWeatherMap condition codes and the six groups the dashboard tells apart.
 * The dashboard writes the grouping out as chains of range tests (the icon
 * chain, in two components, and the card's background chain); each is proved
 * to agree with `Classify`.
 */
module WeatherCode {

  datatype Category = Thunderstorm | Rain | Snow | Atmosphere | Clear | Clouds

  /**
   * Reference grouping by the hundreds digit of a code: 2xx thunderstorm,
   * 3xx to 5xx drizzle and rain, 6xx snow, 7xx atmosphere, exactly 800 clear,
   * anything else (8xx clouds, unknown codes) clouds.
   */
  function Classify(code: int): (c: Category)
    ensures c == Thunderstorm <==> 200 <= code < 300
    ensures c == Rain <==> 300 <= code < 600
    ensures c == Snow <==> 600 <= code < 700
    ensures c == Atmosphere <==> 700 <= code < 800
    ensures c == Clear <==> code == 800
    ensures c == Clouds <==> code < 200 || 800 < code
  {
    var group := code / 100;
    if group == 2 then Thunderstorm
    else if 3 <= group <= 5 then Rain
    else if group == 6 then Snow
    else if group == 7 then Atmosphere
    else if code == 800 then Clear
    else Clouds
  }

  datatype Glyph = ThunderstormIcon | WaterDropIcon | AcUnitIcon | CloudIcon | WbSunnyIcon

  /** An icon as the dashboard draws it: the glyph and its colour. */
  datatype Icon = Icon(glyph: Glyph, color: string)

  /** The icon both the forecast strip and the current-weather card use for a group. */
  function IconFor(c: Category): (i: Icon)
    ensures i.glyph == CloudIcon <==> c == Atmosphere || c == Clouds
    ensures i.glyph == WbSunnyIcon <==> c == Clear
  {
    match c
    case Thunderstorm => Icon(ThunderstormIcon, "#ffeb3b")
    case Rain => Icon(WaterDropIcon, "#64b5f6")
    case Snow => Icon(AcUnitIcon, "#90caf9")
    case Atmosphere => Icon(CloudIcon, "#b0bec5")
    case Clear => Icon(WbSunnyIcon, "#ffa726")
    case Clouds => Icon(CloudIcon, "#b0bec5")
  }

  /**
   * The range-test chain that picks an icon for a condition code.  The forecast
   * strip (`getWeatherIcon`) and the current-weather card (`renderWeatherIcon`)
   * each write it out; the two copies differ only in icon size.
   */
  function ConditionIcon(weatherId: int): (icon: Icon)
    ensures icon == IconFor(Classify(weatherId))
  {
    if weatherId >= 200 && weatherId < 300 then Icon(ThunderstormIcon, "#ffeb3b")
    else if weatherId >= 300 && weatherId < 600 then Icon(WaterDropIcon, "#64b5f6")
    else if weatherId >= 600 && weatherId < 700 then Icon(AcUnitIcon, "#90caf9")
    else if weatherId >= 700 && weatherId < 800 then Icon(CloudIcon, "#b0bec5")
    else if weatherId == 800 then Icon(WbSunnyIcon, "#ffa726")
    else Icon(CloudIcon, "#b0bec5")
  }
}
