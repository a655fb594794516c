/** The lookup state machine of the dashboard page (pages/Index.tsx): a fresh search or a
    refresh fetches current conditions, records a fresh search in the recent list, then
    fetches the forecast, and settles the loading flags, the error and the displayed data.

    The two network calls are not made: each call of `FetchWeather` is given the outcome
    the primary (current conditions) and the secondary (forecast) request would have had.
    The ghost logs record which requests were issued and which toasts were shown. */
module WeatherDashboard {
  import opened WeatherTypes
  import opened RecentSearchStore

  const DefaultErrorMessage: string := "Failed to fetch weather data"

  /** Outcome of `fetchWeatherByCity`: the data, or a rejection whose `message` is
      `Some(err.message)` when the thrown value is an `Error` and `None` otherwise. */
  datatype WeatherOutcome = WeatherFetched(data: WeatherData) | WeatherFailed(message: Option<string>)

  /** Outcome of `fetchForecastByCity`: the data, or any rejection. */
  datatype ForecastOutcome = ForecastFetched(data: ForecastData) | ForecastFailed

  /** The text `setError` receives when the primary request rejects. */
  function ErrorText(message: Option<string>): string
  {
    if message.Some? then message.value else DefaultErrorMessage
  }

  /** The recent-search entry a successful primary response yields. */
  function EntryOf(data: WeatherData): RecentCity
  {
    RecentCity(data.name, data.country)
  }

  /** The page's state, together with the storage and the request and toast logs. */
  datatype Lookup = Lookup(
    weatherData: Option<WeatherData>,
    forecastData: Option<ForecastData>,
    isLoading: bool,
    isRefreshing: bool,
    isForecastLoading: bool,
    error: Option<string>,
    recentSearches: seq<RecentCity>,
    storage: Storage,
    weatherRequests: seq<string>,
    forecastRequests: seq<string>,
    toasts: seq<string>)
  {
    /** No request is in flight. */
    predicate Idle()
    {
      !isLoading && !isRefreshing && !isForecastLoading
    }

    /** The stored list is the in-memory one (or both are absent and empty). */
    predicate Persisted()
    {
      if LocalStorageKey in storage then storage[LocalStorageKey] == recentSearches
      else recentSearches == []
    }
  }

  /** The state a page starts in before the mount effect runs. */
  function Initial(storage: Storage): (s: Lookup)
    ensures s.Idle() && s.weatherData == None && s.forecastData == None && s.error == None
    ensures s.recentSearches == [] && s.storage == storage
    ensures s.weatherRequests == [] && s.forecastRequests == [] && s.toasts == []
  {
    Lookup(None, None, false, false, false, None, [], storage, [], [], [])
  }

  /** The mount effect: a stored list replaces the in-memory one, unchecked. */
  function Load(s: Lookup): (t: Lookup)
    ensures LocalStorageKey in s.storage ==> t.recentSearches == s.storage[LocalStorageKey]
    ensures LocalStorageKey !in s.storage ==> t.recentSearches == s.recentSearches
    ensures t.(recentSearches := s.recentSearches) == s
    ensures s.recentSearches == [] ==> t.Persisted()
  {
    match GetItem(s.storage, LocalStorageKey)
    case Some(saved) => s.(recentSearches := saved)
    case None => s
  }

  /** `saveToRecentSearches(city)` on a state. */
  function SaveRecent(s: Lookup, city: RecentCity): (t: Lookup)
    ensures t.recentSearches == Save(s.recentSearches, city)
    ensures t.storage == SetItem(s.storage, LocalStorageKey, t.recentSearches)
    ensures t.Persisted()
    ensures t.(recentSearches := s.recentSearches, storage := s.storage) == s
  {
    var updated := Save(s.recentSearches, city);
    s.(recentSearches := updated, storage := SetItem(s.storage, LocalStorageKey, updated))
  }

  /** `fetchWeather(city, refresh)` run to completion with the given outcomes. */
  function Fetch(s: Lookup, city: string, refresh: bool, primary: WeatherOutcome,
                 forecast: ForecastOutcome): (t: Lookup)
    // the loading flags are settled; the forecast flag only if the forecast was requested
    ensures !t.isLoading && !t.isRefreshing
    ensures primary.WeatherFetched? ==> !t.isForecastLoading
    ensures primary.WeatherFailed? ==> t.isForecastLoading == s.isForecastLoading
    ensures s.Idle() ==> t.Idle()
    // exactly one primary request, for the query
    ensures t.weatherRequests == s.weatherRequests + [city]
    // primary failure: error shown, data cleared, no forecast request, list untouched
    ensures primary.WeatherFailed? ==>
      && t.error == Some(if primary.message.Some? then primary.message.value
                         else DefaultErrorMessage)
      && t.weatherData == None && t.forecastData == None
      && t.forecastRequests == s.forecastRequests
    // primary success: data shown, no error, one forecast request for the same query
    ensures primary.WeatherFetched? ==>
      && t.weatherData == Some(primary.data) && t.error == None
      && t.forecastRequests == s.forecastRequests + [city]
    // a failed forecast leaves whatever forecast was there before
    ensures primary.WeatherFetched? ==>
      t.forecastData == (if forecast.ForecastFetched? then Some(forecast.data) else s.forecastData)
    // only a successful fresh search touches the recent list and the storage
    ensures refresh || primary.WeatherFailed? ==>
      t.recentSearches == s.recentSearches && t.storage == s.storage
    ensures !refresh && primary.WeatherFetched? ==>
      && t.recentSearches == Save(s.recentSearches, EntryOf(primary.data))
      && t.storage == SetItem(s.storage, LocalStorageKey, t.recentSearches)
    ensures s.Persisted() ==> t.Persisted()
    ensures |s.recentSearches| <= MaxRecentSearches ==> |t.recentSearches| <= MaxRecentSearches
    // a toast, naming the city, exactly for a successful refresh
    ensures t.toasts ==
      if refresh && primary.WeatherFetched? then s.toasts + [primary.data.name] else s.toasts
  {
    var started := Start(s, refresh);
    var settled :=
      match primary
      case WeatherFailed(message) => Failed(started, city, message)
      case WeatherFetched(data) => Fetched(started, city, refresh, data, forecast);
    settled.(isLoading := false, isRefreshing := false)
  }

  /** The opening of `fetchWeather`: raise the matching flag and clear the error. */
  function Start(s: Lookup, refresh: bool): Lookup
  {
    if refresh then s.(isRefreshing := true, error := None)
    else s.(isLoading := true, error := None)
  }

  /** The `catch` of the primary request. */
  function Failed(s: Lookup, city: string, message: Option<string>): Lookup
  {
    s.(weatherRequests := s.weatherRequests + [city],
       error := Some(ErrorText(message)), weatherData := None, forecastData := None)
  }

  /** The body of the `try` after the primary request resolved with `data`. */
  function Fetched(s: Lookup, city: string, refresh: bool, data: WeatherData,
                   forecast: ForecastOutcome): Lookup
  {
    var shown := s.(weatherRequests := s.weatherRequests + [city], weatherData := Some(data));
    var recorded := if refresh then shown else SaveRecent(shown, EntryOf(data));
    var finished := Forecast(recorded, city, forecast);
    if refresh then finished.(toasts := finished.toasts + [data.name]) else finished
  }

  /** The inner `try`/`catch`/`finally` around the forecast request. */
  function Forecast(s: Lookup, city: string, forecast: ForecastOutcome): Lookup
  {
    var requested := s.(forecastRequests := s.forecastRequests + [city]);
    match forecast
    case ForecastFetched(f) => requested.(forecastData := Some(f), isForecastLoading := false)
    case ForecastFailed => requested.(isForecastLoading := false)
  }

  /** `handleRefresh`: re-fetch the displayed city, or nothing when none is displayed. */
  function Refresh(s: Lookup, primary: WeatherOutcome, forecast: ForecastOutcome): (t: Lookup)
    ensures s.weatherData == None ==> t == s
    ensures t.recentSearches == s.recentSearches && t.storage == s.storage
    ensures s.weatherData.Some? ==>
      t.weatherRequests == s.weatherRequests + [s.weatherData.value.name]
  {
    match s.weatherData
    case None => s
    case Some(shown) => Fetch(s, shown.name, true, primary, forecast)
  }

  /** Every lookup keeps the recent list free of case-insensitive duplicates, provided
      it had none. */
  lemma FetchKeepsNoDuplicates(s: Lookup, city: string, refresh: bool,
                               primary: WeatherOutcome, forecast: ForecastOutcome)
    requires NoDuplicateNames(s.recentSearches)
    ensures NoDuplicateNames(Fetch(s, city, refresh, primary, forecast).recentSearches)
  {
    if !refresh && primary.WeatherFetched? {
      SaveNoDuplicates(s.recentSearches, EntryOf(primary.data));
    }
  }

  /** After a successful fresh search the searched city heads the list and is its only
      entry with that name. */
  lemma SearchPutsCityFirst(s: Lookup, city: string, primary: WeatherOutcome,
                            forecast: ForecastOutcome)
    requires primary.WeatherFetched?
    ensures var t := Fetch(s, city, false, primary, forecast);
      && t.recentSearches[0] == EntryOf(primary.data)
      && forall i :: 0 < i < |t.recentSearches| ==>
           !Matches(t.recentSearches[i], primary.data.name)
  {
    SaveUniqueName(s.recentSearches, EntryOf(primary.data));
  }

  /** Searching again for a city the provider names the same way, in the same
      outcome, leaves the recent list as the first search left it. */
  lemma SearchTwiceSameList(s: Lookup, city: string, again: string, primary: WeatherOutcome,
                            forecast: ForecastOutcome, forecast': ForecastOutcome)
    requires primary.WeatherFetched?
    ensures var t := Fetch(s, city, false, primary, forecast);
      Fetch(t, again, false, primary, forecast').recentSearches == t.recentSearches
  {
    SaveIdempotent(s.recentSearches, EntryOf(primary.data));
  }

  /** The page's component state (pages/Index.tsx:17-23) with the storage it writes to. */
  class Dashboard {
    var weatherData: Option<WeatherData>
    var forecastData: Option<ForecastData>
    var isLoading: bool
    var isRefreshing: bool
    var isForecastLoading: bool
    var error: Option<string>
    var recentSearches: seq<RecentCity>
    var storage: Storage
    ghost var weatherRequests: seq<string>
    ghost var forecastRequests: seq<string>
    ghost var toasts: seq<string>

    ghost function State(): Lookup
      reads this
    {
      Lookup(weatherData, forecastData, isLoading, isRefreshing, isForecastLoading, error,
             recentSearches, storage, weatherRequests, forecastRequests, toasts)
    }

    /** The `useState` initial values, over the storage the browser already holds. */
    constructor (saved: Storage)
      ensures State() == Initial(saved)
    {
      weatherData, forecastData := None, None;
      isLoading, isRefreshing, isForecastLoading := false, false, false;
      error := None;
      recentSearches := [];
      storage := saved;
      weatherRequests, forecastRequests, toasts := [], [], [];
    }

    /** The mount effect. */
    method LoadSavedSearches()
      modifies this`recentSearches
      ensures State() == Load(old(State()))
    {
      var saved := GetItem(storage, LocalStorageKey);
      if saved.Some? {
        recentSearches := saved.value;
      }
    }

    method SaveToRecentSearches(city: RecentCity)
      modifies this`recentSearches, this`storage
      ensures State() == SaveRecent(old(State()), city)
    {
      var updated := Save(recentSearches, city);
      storage := SetItem(storage, LocalStorageKey, updated);
      recentSearches := updated;
    }

    method FetchWeather(city: string, refresh: bool, primary: WeatherOutcome,
                        forecast: ForecastOutcome)
      modifies this
      ensures State() == Fetch(old(State()), city, refresh, primary, forecast)
    {
      ghost var s := old(State());
      if refresh {
        isRefreshing := true;
      } else {
        isLoading := true;
      }
      error := None;
      ghost var started := Start(s, refresh);
      assert State() == started;

      weatherRequests := weatherRequests + [city];
      match primary {
        case WeatherFetched(data) =>
          weatherData := Some(data);
          if !refresh {
            SaveToRecentSearches(EntryOf(data));
          }
          LoadForecast(city, forecast);
          if refresh {
            toasts := toasts + [data.name];
          }
          assert State() == Fetched(started, city, refresh, data, forecast);
        case WeatherFailed(message) =>
          error := Some(ErrorText(message));
          weatherData := None;
          forecastData := None;
          assert State() == Failed(started, city, message);
      }
      isLoading := false;
      isRefreshing := false;
    }

    /** The forecast part of `fetchWeather`: raise the flag, request, settle. */
    method LoadForecast(city: string, forecast: ForecastOutcome)
      modifies this`isForecastLoading, this`forecastData, this`forecastRequests
      ensures State() == Forecast(old(State()), city, forecast)
    {
      isForecastLoading := true;
      forecastRequests := forecastRequests + [city];
      match forecast {
        case ForecastFetched(f) =>
          forecastData := Some(f);
        case ForecastFailed =>
      }
      isForecastLoading := false;
    }

    method HandleSearch(city: string, primary: WeatherOutcome, forecast: ForecastOutcome)
      modifies this
      ensures State() == Fetch(old(State()), city, false, primary, forecast)
    {
      FetchWeather(city, false, primary, forecast);
    }

    method HandleRefresh(primary: WeatherOutcome, forecast: ForecastOutcome)
      modifies this
      ensures State() == Refresh(old(State()), primary, forecast)
    {
      if weatherData.Some? {
        FetchWeather(weatherData.value.name, true, primary, forecast);
      }
    }

    method HandleRecentCitySelect(cityName: string, primary: WeatherOutcome,
                                  forecast: ForecastOutcome)
      modifies this
      ensures State() == Fetch(old(State()), cityName, false, primary, forecast)
    {
      FetchWeather(cityName, false, primary, forecast);
    }
  }
}
