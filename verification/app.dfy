/**
 * The dashboard's top-level state (src/App.jsx): which request a fetch sends,
 * how each fetch outcome changes the state, the search and location handlers,
 * the theme switch, and which of the three views the page shows.
 *
 * Network calls are not performed: a fetch returns the request it would send,
 * and its outcome arrives later as a call of one of the `On…` methods.
 */
module App {
  import opened Maybe
  import opened Payloads
  import opened Truthy

  /** The provider endpoints the dashboard calls. */
  datatype Endpoint = WeatherApi | AirPollutionApi | ForecastApi

  /**
   * The URL a fetch builds: by coordinates, by city name, or none at all
   * (`url` left `undefined`, which the fetch then fails on).
   */
  datatype Request =
    | ByCoords(endpoint: Endpoint, lat: real, lon: real)
    | ByCity(endpoint: Endpoint, city: string)
    | NoUrl(endpoint: Endpoint)

  /** The `{ city, latitude, longitude }` argument of a fetch; a missing key is `None`. */
  datatype Query = Query(city: Option<string>, latitude: Option<real>, longitude: Option<real>)

  /**
   * The URL choice of `fetchWeatherData` and `fetchFiveDayForecast`:
   * coordinates when both are truthy, else the city when it is truthy, else none.
   */
  function LocationRequest(endpoint: Endpoint, q: Query): (r: Request)
    ensures r.endpoint == endpoint
    ensures r.ByCoords? <==> TruthyNumber(q.latitude) && TruthyNumber(q.longitude)
    ensures r.ByCoords? ==> Some(r.lat) == q.latitude && Some(r.lon) == q.longitude
    ensures r.ByCity? <==> !(TruthyNumber(q.latitude) && TruthyNumber(q.longitude)) && TruthyText(q.city)
    ensures r.ByCity? ==> Some(r.city) == q.city
  {
    if TruthyNumber(q.latitude) && TruthyNumber(q.longitude) then
      ByCoords(endpoint, q.latitude.value, q.longitude.value)
    else if TruthyText(q.city) then
      ByCity(endpoint, q.city.value)
    else
      NoUrl(endpoint)
  }

  /** A coordinate of exactly 0 counts as missing, so with no city there is no URL. */
  lemma ZeroCoordinateHasNoUrl(endpoint: Endpoint, lat: real, lon: real)
    requires lat == 0.0 || lon == 0.0
    ensures LocationRequest(endpoint, Query(None, Some(lat), Some(lon))) == NoUrl(endpoint)
  {
  }

  /** The two follow-up requests a current-weather payload with coordinates triggers. */
  function FollowUps(c: Coord): (rs: seq<Request>)
    ensures |rs| == 2
    ensures rs[0] == ByCoords(AirPollutionApi, c.lat, c.lon)
    ensures rs[1].endpoint == ForecastApi
    ensures rs[1].NoUrl? <==> c.lat == 0.0 || c.lon == 0.0
    ensures !rs[1].NoUrl? ==> rs[1] == ByCoords(ForecastApi, c.lat, c.lon)
  {
    [ByCoords(AirPollutionApi, c.lat, c.lon),
     LocationRequest(ForecastApi, Query(None, Some(c.lat), Some(c.lon)))]
  }

  /** What the page shows below the navigation bar. */
  datatype View = Spinner | Dashboard(withForecast: bool) | NoData

  /**
   * The view rule: the spinner while loading with no current weather; the
   * dashboard when both current weather and air quality are present (with the
   * forecast strip only when the forecast is present); the "No weather data"
   * message otherwise.
   */
  function SelectView(loading: bool, hasWeather: bool, hasAir: bool, hasForecast: bool): (v: View)
    ensures v == Spinner <==> loading && !hasWeather
    ensures v.Dashboard? <==> hasWeather && hasAir
    ensures v.Dashboard? ==> v.withForecast == hasForecast
    ensures v == NoData <==> !(loading && !hasWeather) && !(hasWeather && hasAir)
  {
    if loading && !hasWeather then Spinner
    else if hasWeather && hasAir then Dashboard(hasForecast)
    else NoData
  }

  /** Once current weather is present the loading flag no longer changes the view. */
  lemma LoadingIrrelevantWithWeather(hasAir: bool, hasForecast: bool)
    ensures SelectView(true, true, hasAir, hasForecast) == SelectView(false, true, hasAir, hasForecast)
  {
  }

  class AppState {
    var weatherData: Option<CurrentWeather>
    var city: string
    var airQualityData: Option<AirSample>
    var fiveDayForecast: Option<ForecastFeed>
    var loading: bool
    var isDarkMode: bool

    function View(): View
      reads this
    {
      SelectView(loading, weatherData.Some?, airQualityData.Some?, fiveDayForecast.Some?)
    }

    /** The initial state: London, loading, dark theme, no data. */
    constructor ()
      ensures weatherData == None && airQualityData == None && fiveDayForecast == None
      ensures city == "London" && loading && isDarkMode
      ensures View() == Spinner
    {
      weatherData := None;
      city := "London";
      airQualityData := None;
      fiveDayForecast := None;
      loading := true;
      isDarkMode := true;
    }

    /** `fetchWeatherData(q)`: raise the loading flag and send the current-weather request. */
    method FetchWeatherData(q: Query) returns (r: Request)
      modifies this
      ensures r == LocationRequest(WeatherApi, q)
      ensures loading
      ensures weatherData == old(weatherData) && airQualityData == old(airQualityData)
      ensures fiveDayForecast == old(fiveDayForecast) && city == old(city) && isDarkMode == old(isDarkMode)
      ensures weatherData.None? ==> View() == Spinner
      ensures weatherData.Some? ==> View() == old(View())
    {
      loading := true;
      r := LocationRequest(WeatherApi, q);
    }

    /**
     * The current-weather payload arrived: it replaces `weatherData` whatever it
     * holds.  With coordinates it triggers the air-quality and forecast requests;
     * without them reading `data.coord.lat` throws, the error handler runs and
     * only the loading flag drops.  Such a payload (an error body) is still
     * stored, so with air-quality data left from an earlier search the page
     * goes on showing the dashboard, now over a payload without its fields.
     */
    method OnWeatherLoaded(data: CurrentWeather) returns (followUps: seq<Request>)
      modifies this
      ensures weatherData == Some(data)
      ensures data.coord.Some? ==> followUps == FollowUps(data.coord.value) && loading == old(loading)
      ensures data.coord.None? ==> followUps == [] && !loading
      ensures airQualityData == old(airQualityData) && fiveDayForecast == old(fiveDayForecast)
      ensures city == old(city) && isDarkMode == old(isDarkMode)
      ensures View() != Spinner
      ensures old(airQualityData).Some? ==> View().Dashboard?
    {
      weatherData := Some(data);
      if data.coord.Some? {
        followUps := FollowUps(data.coord.value);
      } else {
        followUps := [];
        loading := false;
      }
    }

    /** The current-weather request failed: only the loading flag drops. */
    method OnWeatherFailed()
      modifies this
      ensures !loading
      ensures weatherData == old(weatherData) && airQualityData == old(airQualityData)
      ensures fiveDayForecast == old(fiveDayForecast) && city == old(city) && isDarkMode == old(isDarkMode)
      ensures View() != Spinner
      ensures old(weatherData).None? ==> View() == NoData
    {
      loading := false;
    }

    /**
     * The air-quality payload arrived with the given `list`: its first entry
     * becomes `airQualityData`; an empty list yields `undefined`, which the page
     * treats as no data.  The loading flag is untouched.
     */
    method OnAirQualityLoaded(list: seq<AirSample>)
      modifies this
      ensures airQualityData == if list == [] then None else Some(list[0])
      ensures weatherData == old(weatherData) && fiveDayForecast == old(fiveDayForecast)
      ensures loading == old(loading) && city == old(city) && isDarkMode == old(isDarkMode)
      ensures weatherData.Some? && list != [] ==> View().Dashboard?
    {
      airQualityData := if list == [] then None else Some(list[0]);
    }

    /** The air-quality request failed: the error is only logged, nothing changes. */
    method OnAirQualityFailed()
      ensures unchanged(this)
    {
    }

    /** The forecast payload arrived: it is stored and the loading flag drops. */
    method OnForecastLoaded(feed: ForecastFeed)
      modifies this
      ensures fiveDayForecast == Some(feed) && !loading
      ensures weatherData == old(weatherData) && airQualityData == old(airQualityData)
      ensures city == old(city) && isDarkMode == old(isDarkMode)
      ensures View() != Spinner
      ensures View().Dashboard? ==> View().withForecast
    {
      fiveDayForecast := Some(feed);
      loading := false;
    }

    /** The forecast request failed: only the loading flag drops. */
    method OnForecastFailed()
      modifies this
      ensures !loading
      ensures weatherData == old(weatherData) && airQualityData == old(airQualityData)
      ensures fiveDayForecast == old(fiveDayForecast) && city == old(city) && isDarkMode == old(isDarkMode)
      ensures View() != Spinner
    {
      loading := false;
    }

    /** `handleSearch(searchedCity)`: remember the city and fetch its weather by name. */
    method HandleSearch(searchedCity: string) returns (r: Request)
      modifies this
      ensures city == searchedCity && loading
      ensures r == if searchedCity == "" then NoUrl(WeatherApi) else ByCity(WeatherApi, searchedCity)
      ensures weatherData == old(weatherData) && airQualityData == old(airQualityData)
      ensures fiveDayForecast == old(fiveDayForecast) && isDarkMode == old(isDarkMode)
    {
      city := searchedCity;
      r := FetchWeatherData(Query(Some(searchedCity), None, None));
    }

    /**
     * The effect that runs on mount and whenever `city` changes: fetch the
     * weather of the current city.
     */
    method CityEffect() returns (r: Request)
      modifies this
      ensures r == if city == "" then NoUrl(WeatherApi) else ByCity(WeatherApi, city)
      ensures loading
      ensures weatherData == old(weatherData) && airQualityData == old(airQualityData)
      ensures fiveDayForecast == old(fiveDayForecast) && city == old(city) && isDarkMode == old(isDarkMode)
    {
      r := FetchWeatherData(Query(Some(city), None, None));
    }

    /**
     * `handleCurrentLocation(latitude, longitude)`: fetch by coordinates; `city`
     * is not changed, and a zero coordinate leaves the fetch without a URL.
     */
    method HandleCurrentLocation(latitude: real, longitude: real) returns (r: Request)
      modifies this
      ensures latitude != 0.0 && longitude != 0.0 ==> r == ByCoords(WeatherApi, latitude, longitude)
      ensures latitude == 0.0 || longitude == 0.0 ==> r == NoUrl(WeatherApi)
      ensures loading
      ensures weatherData == old(weatherData) && airQualityData == old(airQualityData)
      ensures fiveDayForecast == old(fiveDayForecast) && city == old(city) && isDarkMode == old(isDarkMode)
    {
      r := FetchWeatherData(Query(None, Some(latitude), Some(longitude)));
    }

    /** `toggleDarkMode`: flip the theme and nothing else. */
    method ToggleDarkMode()
      modifies this
      ensures isDarkMode == !old(isDarkMode)
      ensures weatherData == old(weatherData) && airQualityData == old(airQualityData)
      ensures fiveDayForecast == old(fiveDayForecast) && city == old(city) && loading == old(loading)
      ensures View() == old(View())
    {
      isDarkMode := !isDarkMode;
    }
  }
}
