/**
 * The current-weather card (src/components/Mainweather.jsx).  Every field is
 * read with `?.` and defaulted with `||`, so a falsy value (absent, `0`, `""`)
 * takes the default just as an absent one does.
 */
module MainWeather {
  import opened Maybe
  import opened Payloads
  import opened WeatherCode
  import opened Truthy

  /** A reading that is shown, or the text 'N/A'. */
  datatype Reading<T> = Shown(value: T) | NotAvailable

  datatype DateLabel = DateOf(dt: int) | DateNotAvailable

  /** What the card shows, before number and date formatting. */
  datatype Card = Card(
    temperature: Reading<real>,
    description: string,
    weatherId: int,
    city: string,
    country: string,
    date: DateLabel,
    humidity: Reading<int>,
    windSpeed: Reading<real>)

  /** `weatherData?.main?.temp || 'N/A'`: a reading of exactly 0 counts as missing. */
  function RealReading(v: Option<real>): (r: Reading<real>)
    ensures r.Shown? <==> v.Some? && v.value != 0.0
    ensures r.Shown? ==> Some(r.value) == v
  {
    if TruthyNumber(v) then Shown(v.value) else NotAvailable
  }

  /** `weatherData?.main?.humidity || 'N/A'`. */
  function IntReading(v: Option<int>): (r: Reading<int>)
    ensures r.Shown? <==> v.Some? && v.value != 0
    ensures r.Shown? ==> Some(r.value) == v
  {
    if TruthyInt(v) then Shown(v.value) else NotAvailable
  }

  /** `text || fallback` for an optional string. */
  function TextOr(v: Option<string>, fallback: string): (s: string)
    ensures TruthyText(v) ==> s == v.value
    ensures !TruthyText(v) ==> s == fallback
  {
    if TruthyText(v) then v.value else fallback
  }

  /** `weatherData?.weather?.[0]?.description || 'N/A'`. */
  function Description(conditions: seq<Condition>): (s: string)
    ensures s == "N/A" || (conditions != [] && s == conditions[0].description)
    ensures conditions != [] && conditions[0].description != "" ==> s == conditions[0].description
    ensures conditions == [] || conditions[0].description == "" ==> s == "N/A"
  {
    if conditions != [] && conditions[0].description != "" then conditions[0].description else "N/A"
  }

  /** `weatherData?.weather?.[0]?.id || 800`: a missing or zero code is read as clear sky. */
  function ConditionCode(conditions: seq<Condition>): (id: int)
    ensures id == 800 <==> conditions == [] || conditions[0].id == 0 || conditions[0].id == 800
    ensures id != 800 ==> id == conditions[0].id
  {
    if conditions != [] && conditions[0].id != 0 then conditions[0].id else 800
  }

  /** `timestamp ? new Date(timestamp * 1000)... : 'Date Not Available'`. */
  function DateLabelOf(dt: Option<int>): (d: DateLabel)
    ensures d == DateNotAvailable <==> dt.None? || dt == Some(0)
    ensures d.DateOf? ==> Some(d.dt) == dt
  {
    if TruthyInt(dt) then DateOf(dt.value) else DateNotAvailable
  }

  /** The `||` defaults of the whole card: each field is read and defaulted on its own. */
  function Summarize(w: CurrentWeather): (c: Card)
    ensures c.temperature == RealReading(w.temp) && c.windSpeed == RealReading(w.windSpeed)
    ensures c.humidity == IntReading(w.humidity)
    ensures c.description == Description(w.weather) && c.weatherId == ConditionCode(w.weather)
    ensures c.city == TextOr(w.name, "City Not Available")
    ensures c.country == TextOr(w.country, "Country Not Available")
    ensures c.date == DateLabelOf(w.dt)
  {
    Card(RealReading(w.temp), Description(w.weather), ConditionCode(w.weather),
      TextOr(w.name, "City Not Available"), TextOr(w.country, "Country Not Available"),
      DateLabelOf(w.dt), IntReading(w.humidity), RealReading(w.windSpeed))
  }

  /** A condition code of 0 is taken for a missing one and drawn as clear sky. */
  lemma ZeroCodeShowsClear(w: CurrentWeather)
    requires w.weather != [] && w.weather[0].id == 0
    ensures Classify(Summarize(w).weatherId) == Clear
    ensures Classify(w.weather[0].id) == Clouds
  {
  }

  /** A temperature of exactly 0 °C is shown as 'N/A'. */
  lemma ZeroTemperatureNotShown(w: CurrentWeather)
    requires w.temp == Some(0.0)
    ensures Summarize(w).temperature == NotAvailable
  {
  }

  /** The card background for each condition group. */
  function GradientFor(c: Category): string
  {
    match c
    case Thunderstorm => "linear-gradient(135deg, #414345 0%, #232526 100%)"
    case Rain => "linear-gradient(135deg, #3a7bd5 0%, #304352 100%)"
    case Snow => "linear-gradient(135deg, #8e9eab 0%, #eef2f3 100%)"
    case Atmosphere => "linear-gradient(135deg, #5D4157 0%, #A8CABA 100%)"
    case Clear => "linear-gradient(135deg, #2980B9 0%, #6DD5FA 100%)"
    case Clouds => "linear-gradient(135deg, #757F9A 0%, #D7DDE8 100%)"
  }

  /** The condition group a background stands for. */
  function GradientCategory(gradient: string): (c: Option<Category>)
    ensures forall g :: c == Some(g) ==> GradientFor(g) == gradient
  {
    if gradient == GradientFor(Thunderstorm) then Some(Thunderstorm)
    else if gradient == GradientFor(Rain) then Some(Rain)
    else if gradient == GradientFor(Snow) then Some(Snow)
    else if gradient == GradientFor(Atmosphere) then Some(Atmosphere)
    else if gradient == GradientFor(Clear) then Some(Clear)
    else if gradient == GradientFor(Clouds) then Some(Clouds)
    else None
  }

  /** `getBgGradient`: the card background for its condition code. */
  function BgGradient(weatherId: int): (gradient: string)
    ensures gradient == GradientFor(Classify(weatherId))
  {
    if weatherId >= 200 && weatherId < 300 then "linear-gradient(135deg, #414345 0%, #232526 100%)"
    else if weatherId >= 300 && weatherId < 600 then "linear-gradient(135deg, #3a7bd5 0%, #304352 100%)"
    else if weatherId >= 600 && weatherId < 700 then "linear-gradient(135deg, #8e9eab 0%, #eef2f3 100%)"
    else if weatherId >= 700 && weatherId < 800 then "linear-gradient(135deg, #5D4157 0%, #A8CABA 100%)"
    else if weatherId == 800 then "linear-gradient(135deg, #2980B9 0%, #6DD5FA 100%)"
    else "linear-gradient(135deg, #757F9A 0%, #D7DDE8 100%)"
  }

  /** Each background names exactly one group: the first colour stop tells them apart. */
  lemma GradientNamesItsCategory(c: Category)
    ensures GradientCategory(GradientFor(c)) == Some(c)
  {
    assert GradientFor(Thunderstorm)[25] == '4';
    assert GradientFor(Rain)[25] == '3';
    assert GradientFor(Snow)[25] == '8';
    assert GradientFor(Atmosphere)[25] == '5';
    assert GradientFor(Clear)[25] == '2';
    assert GradientFor(Clouds)[25] == '7';
  }

  /** The icon and the background of the card always pick the same condition group. */
  lemma IconAndBackgroundAgree(weatherId: int)
    ensures GradientCategory(BgGradient(weatherId)) == Some(Classify(weatherId))
    ensures ConditionIcon(weatherId) == IconFor(Classify(weatherId))
  {
    GradientNamesItsCategory(Classify(weatherId));
  }
}
