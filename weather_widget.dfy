/** The weather overlay: the table that maps a WMO weather code to a label and an
    icon, the widget's loading/error/weather state as fetches start and finish,
    and which panel it shows. The HTTP request to the weather service is a
    parameter: its outcome. */
module Weather {
  import opened Types

  /** The display record kept from a successful response. */
  datatype WeatherData = WeatherData(temperature: real, weatherCode: int, windSpeed: real, humidity: int)

  /** The icon category; colours and sizes are styling. */
  datatype Icon = Sun | Cloud | CloudFog | CloudRain | CloudSnow | CloudLightning

  /** A fetch either yields a record or fails (network error, non-2xx status, unreadable body). */
  datatype FetchOutcome = Fetched(data: WeatherData) | FetchFailed

  /** The four panels the widget can show. `refreshing` is the small spinner beside
      a weather record while a newer fetch is in flight. */
  datatype Panel = Spinner | Unavailable | Current(data: WeatherData, refreshing: bool) | Locating

  /** The label of a weather code. The tested ranges are disjoint, so the table is
      order-independent; every code outside them, negatives included, reads "Cloudy". */
  function WeatherLabel(code: int): (name: string)
    ensures name == "Clear" <==> code == 0
    ensures name == "Fog" <==> code == 45 || code == 48
    ensures name == "Rain" <==> 51 <= code <= 67
    ensures name == "Showers" <==> 80 <= code <= 82
    ensures name == "Snow" <==> 71 <= code <= 77
    ensures name == "Storm" <==> code >= 95
    ensures name == "Cloudy" <==>
      !(code == 0 || code == 45 || code == 48 || 51 <= code <= 67 ||
        80 <= code <= 82 || 71 <= code <= 77 || code >= 95)
  {
    if code == 0 then "Clear"
    else if 1 <= code <= 3 then "Cloudy"
    else if code == 45 || code == 48 then "Fog"
    else if 51 <= code <= 67 then "Rain"
    else if 80 <= code <= 82 then "Showers"
    else if 71 <= code <= 77 then "Snow"
    else if code >= 95 then "Storm"
    else "Cloudy"
  }

  /** The icon of a weather code, which agrees with its label for every code:
      rain and showers share one icon. */
  function WeatherIcon(code: int): (icon: Icon)
    ensures icon == Sun <==> WeatherLabel(code) == "Clear"
    ensures icon == Cloud <==> WeatherLabel(code) == "Cloudy"
    ensures icon == CloudFog <==> WeatherLabel(code) == "Fog"
    ensures icon == CloudRain <==> WeatherLabel(code) == "Rain" || WeatherLabel(code) == "Showers"
    ensures icon == CloudSnow <==> WeatherLabel(code) == "Snow"
    ensures icon == CloudLightning <==> WeatherLabel(code) == "Storm"
  {
    if code == 0 then Sun
    else if 1 <= code <= 3 then Cloud
    else if code == 45 || code == 48 then CloudFog
    else if 51 <= code <= 67 then CloudRain
    else if 80 <= code <= 82 then CloudRain
    else if 71 <= code <= 77 then CloudSnow
    else if code >= 95 then CloudLightning
    else Cloud
  }

  /** Which panel is shown: the large spinner only while loading with no record yet;
      otherwise an error wins over a stale record; otherwise the record; otherwise
      "Locating...". */
  function PanelFor(loading: bool, error: bool, weather: Option<WeatherData>): (p: Panel)
    ensures p == Spinner <==> loading && weather.None?
    ensures p == Unavailable <==> error && !(loading && weather.None?)
    ensures p.Current? <==> weather.Some? && !error
    ensures p.Current? ==> p.data == weather.value && p.refreshing == loading
    ensures p == Locating <==> weather.None? && !loading && !error
  {
    if loading && weather.None? then Spinner
    else if error then Unavailable
    else if weather.Some? then Current(weather.value, loading)
    else Locating
  }

  /** Nothing is rendered without a location; otherwise the panel of the state. */
  function Render(location: Option<Coordinates>, loading: bool, error: bool,
                  weather: Option<WeatherData>): (view: Option<Panel>)
    ensures view.None? <==> location.None?
    ensures view.Some? ==> view.value == PanelFor(loading, error, weather)
  {
    if location.None? then None else Some(PanelFor(loading, error, weather))
  }

  class WeatherWidget {
    var weather: Option<WeatherData>
    var loading: bool
    var error: bool

    /** The panel the current state shows when a location is set. */
    function Display(): Panel
      reads this
    {
      PanelFor(loading, error, weather)
    }

    constructor ()
      ensures weather == None && !loading && !error
      ensures Display() == Locating
    {
      weather, loading, error := None, false, false;
    }

    /** A fetch starts: loading on, error off, the last record kept. While it runs
        the widget shows the large spinner only if it has no record yet. */
    method BeginFetch()
      modifies this
      ensures loading && !error && weather == old(weather)
      ensures Display() == if weather.None? then Spinner else Current(weather.value, true)
    {
      loading := true;
      error := false;
    }

    /** A fetch finishes: a record replaces the previous one whole; a failure raises
        the error flag and keeps the previous record; loading ends either way. */
    method EndFetch(outcome: FetchOutcome)
      modifies this
      ensures !loading
      ensures outcome.Fetched? ==> weather == Some(outcome.data) && error == old(error)
      ensures outcome.FetchFailed? ==> weather == old(weather) && error
    {
      match outcome {
        case Fetched(data) =>
          weather := Some(data);
        case FetchFailed =>
          error := true;
      }
      loading := false;
    }

    /** One whole fetch: the new record is shown after a success, the error text after a failure. */
    method FetchWeather(outcome: FetchOutcome)
      modifies this
      ensures !loading
      ensures outcome.Fetched? ==> weather == Some(outcome.data) && !error
      ensures outcome.FetchFailed? ==> weather == old(weather) && error
      ensures Display() == if outcome.Fetched? then Current(outcome.data, false) else Unavailable
    {
      BeginFetch();
      EndFetch(outcome);
    }

    /** Two fetches in flight at once (the debounce cancels only a pending timer,
        never a started request): the first to finish already clears `loading`
        while the second is still running, and a failure of the first keeps its
        error flag when the second then succeeds, so the newer record is hidden
        behind "Weather unavailable". */
    method OverlappingFetches(first: FetchOutcome, second: FetchOutcome) returns (loadingWhileSecondRuns: bool)
      modifies this
      ensures !loadingWhileSecondRuns && !loading
      ensures second.Fetched? ==> weather == Some(second.data) && (error <==> first.FetchFailed?)
      ensures second.FetchFailed? ==> error && (first.Fetched? ==> weather == Some(first.data))
      ensures first.FetchFailed? && second.Fetched? ==> Display() == Unavailable
    {
      BeginFetch();
      BeginFetch();
      EndFetch(first);
      loadingWhileSecondRuns := loading;
      EndFetch(second);
    }

    /** The effect run once the location has been stable for the debounce window:
        without a location no fetch happens and nothing changes. */
    method OnLocationSettled(location: Option<Coordinates>, outcome: FetchOutcome)
      modifies this
      ensures location.None? ==> weather == old(weather) && loading == old(loading) && error == old(error)
      ensures location.Some? ==> !loading
      ensures location.Some? && outcome.Fetched? ==> weather == Some(outcome.data) && !error
      ensures location.Some? && outcome.FetchFailed? ==> weather == old(weather) && error
    {
      if location.None? {
        return;
      }
      FetchWeather(outcome);
    }
  }
}
