# Weather dashboard: lookup state machine and recent-search list

This project models the one page of a weather dashboard that holds logic
(`Index.tsx`). The user searches for a city. The page fetches its current
conditions (the *primary* request) and, if that succeeds, its forecast (the
*secondary* request). It then settles its loading flags, its error message and
the data it displays. A successful fresh search also records the city in a
most-recent-first list of at most five cities. Names in that list are compared
without regard to case, and the list is written to browser storage after every
change. A refresh re-fetches the displayed city, if there is one, leaves the
list alone and, when the request succeeds, shows a toast.

Files:

- `weather_types.dfy` (module `WeatherTypes`): the response shapes of `weather.tsx`
  and `RecentCity`. The floating-point measurements are dropped.
- `recent_searches.dfy` (module `RecentSearchStore`): the constants
  `MaxRecentSearches = 5` and `LocalStorageKey = "recentSearches"`. Storage is a
  map from keys to lists. The list update of `saveToRecentSearches` is the pure
  function `Save`, built on the filter `WithoutName`. The contract of `Save`
  states its head and its bound of five. Lemmas prove that the saved name is
  unique in the result. They also prove that the entries after the
  head are the filtered previous list cut from its end, so eviction drops the
  oldest survivors.
- `dashboard.dfy` (module `WeatherDashboard`): the page state as the datatype
  `Lookup`, extended with ghost logs of primary requests, forecast requests and
  toasts. `Fetch` is the effect of one `fetchWeather` call, and its contract
  states the properties the page promises. The class `Dashboard` holds the seven
  state fields and the storage. Its methods (`FetchWeather`, the three handlers,
  the mount effect, `SaveToRecentSearches`) update those fields step by step, in
  the code's order. Each method is proved to leave `State()` equal to the
  matching function of the old state.

Each network request is a parameter holding its outcome. `WeatherOutcome` is
either the data or a rejection. The rejection carries `Some(err.message)` when
the thrown value is an `Error` and `None` otherwise. `ForecastOutcome` is
either the data or a rejection.

Three points where the code's behaviour differs from a plain reading of its intent:

- When the forecast request fails, `forecastData` is not cleared. It keeps
  whatever the previous lookup left (Index.tsx:65-71). `Fetch` follows the code.
- `isForecastLoading` is only touched after a primary success. After a primary
  failure it keeps its old value. So "every flag is false on return" holds when
  the call started with no request in flight (`Lookup.Idle`). That is always true
  when calls do not overlap.
- The stored list is loaded without any check (Index.tsx:26-31). A loaded list
  can be longer than five or hold duplicate names. The bound `<= 5` holds after
  every save regardless (`Save`). Freedom from duplicates is preserved only when
  it already held (`SaveNoDuplicates`, `FetchKeepsNoDuplicates`).

## Model

| member | source | states |
|---|---|---|
| RecentSearchStore.SetItem | Index.tsx:39 | writing a key stores exactly that list under it and leaves every other key and value as it was |
| RecentSearchStore.GetItem | Index.tsx:27 | reading a key yields the stored list exactly when the key is present |
| RecentSearchStore.WithoutName | Index.tsx:35-37 | every entry of the result has a name that differs from the new city's once lower-cased, and every such entry of the input is in the result; the result is as long as the input minus the number of matching entries, counted with repeats; together with `WithoutNameIsSubsequence` this fixes the result exactly, repeated entries included |
| RecentSearchStore.Save | Index.tsx:38 | after a save the list has between one and five entries and its first entry is the saved city, whatever the previous list's length |
| RecentSearchStore.WithoutNameIsSubsequence | Index.tsx:35-37 | the filter only deletes entries: its result is a subsequence of the input in the input's order |
| RecentSearchStore.WithoutNameUnchanged | Index.tsx:35-37 | a list with no entry matching the name passes the filter unchanged |
| RecentSearchStore.WithoutNameNoDuplicates | Index.tsx:35-37 | filtering a list without case-insensitive duplicate names gives a list without them |
| RecentSearchStore.WithoutNameRemovesOne | Index.tsx:35-37 | in a duplicate-free list, filtering out a name that occurs removes exactly one entry |
| RecentSearchStore.SaveUniqueName | Index.tsx:35-38 | after a save exactly one entry, the first, has the saved city's name without regard to case |
| RecentSearchStore.SaveNoDuplicates | Index.tsx:35-38 | a save keeps a list without case-insensitive duplicate names free of them |
| RecentSearchStore.SaveKeepsOrder | Index.tsx:35-38 | the entries after the first are the filtered previous list cut from its end, so eviction drops the oldest survivors; the list's length is one plus the survivors, capped at five; the tail is a subsequence of the previous list in its old order, with no entry of the saved name |
| RecentSearchStore.SaveKeepsOthers | Index.tsx:35-38 | below capacity no other city is lost: every previous entry with a different name is still present |
| RecentSearchStore.SaveExistingDoesNotGrow | Index.tsx:35-38 | re-saving a city already in a duplicate-free list does not lengthen it, and keeps its length when it had at most five entries |
| RecentSearchStore.SaveNewCity | Index.tsx:35-38 | saving a city not yet listed prepends it, keeping only the first four previous entries when the list already had five or more |
| RecentSearchStore.SaveEvictsOldest | Index.tsx:38 | a sixth distinct city keeps the list at five entries and evicts the oldest of the five |
| RecentSearchStore.SaveIdempotent | Index.tsx:35-38 | saving the same city twice in a row leaves the list as one save does |
| RecentSearchStore.SaveReplacesOtherCase | Index.tsx:36 | saving "Paris" over a list holding "paris" replaces that entry instead of adding a second one |
| WeatherDashboard.Initial | Index.tsx:17-23 | the page starts idle with no data, no error and an empty list, and has issued no request and no toast |
| WeatherDashboard.Load | Index.tsx:26-31 | the mount effect replaces the list with the stored one when the key is present and changes nothing else; starting from the empty list, memory and storage then agree |
| WeatherDashboard.SaveRecent | Index.tsx:33-42 | the in-memory list becomes the saved list, storage holds exactly that list under the key and nothing else in the state changes |
| WeatherDashboard.Fetch | Index.tsx:44-90 | after a call the loading flags are false (the forecast flag when the forecast was requested or was false before). A primary failure sets the error to the message or to "Failed to fetch weather data", clears both data slots, issues no forecast request and leaves the list and storage alone. A primary success shows the data with no error, requests the forecast for the same query and keeps the old forecast when that fails. Only a successful fresh search saves to the list and storage. A toast naming the city is emitted exactly for a successful refresh. Agreement of memory and storage and the bound of five are preserved |
| WeatherDashboard.Refresh | Index.tsx:96-100 | a refresh with no displayed weather changes nothing; otherwise it re-fetches the displayed city's name; either way the list and storage stay unchanged |
| WeatherDashboard.FetchKeepsNoDuplicates | Index.tsx:57-62 | every lookup keeps a duplicate-free recent list duplicate-free |
| WeatherDashboard.SearchPutsCityFirst | Index.tsx:57-62 | after a successful fresh search the city the provider returned heads the list and no other entry has its name |
| WeatherDashboard.SearchTwiceSameList | Index.tsx:57-62 | searching again with the same provider answer leaves the list as the first search left it |
| WeatherDashboard.Dashboard.constructor | Index.tsx:17-23 | the fields start as the `useState` initial values over the existing storage |
| WeatherDashboard.Dashboard.LoadSavedSearches | Index.tsx:26-31 | the mount effect's new state is `Load` of the old one |
| WeatherDashboard.Dashboard.SaveToRecentSearches | Index.tsx:33-42 | the new list and storage are `SaveRecent` of the old state |
| WeatherDashboard.Dashboard.FetchWeather | Index.tsx:44-90 | the step-by-step field updates end in exactly the state `Fetch` describes |
| WeatherDashboard.Dashboard.LoadForecast | Index.tsx:65-74 | logs the forecast request, stores a fetched forecast or keeps the old one, and leaves the forecast flag lowered |
| WeatherDashboard.Dashboard.HandleSearch | Index.tsx:92-94 | a search is a fresh `fetchWeather` of the typed city |
| WeatherDashboard.Dashboard.HandleRefresh | Index.tsx:96-100 | the new state is `Refresh` of the old one: nothing without displayed weather, else a refresh fetch of its name |
| WeatherDashboard.Dashboard.HandleRecentCitySelect | Index.tsx:102-104 | selecting a recent city is a fresh `fetchWeather` of that name |

## Left out

- Rendering (Index.tsx:106-156) and the React hook mechanics. Each handler runs
  to completion before the next starts, with every state update applied in
  order. Setter batching and effect scheduling are not modelled.
- Overlapping calls of `fetchWeather` and the last-write-wins race between a
  stale and a newer request. The model runs each call on its own.
- The network calls `fetchWeatherByCity` and `fetchForecastByCity`
  (services/weatherService is not part of this model). Their results are
  parameters.
- JSON serialisation and `localStorage` itself. Storage is a map from keys to
  lists. Three consequences follow. A corrupt stored value (where `JSON.parse`
  throws) is not modelled. An empty stored string, which `if (savedSearches)`
  would skip, cannot arise. There is no validation of the loaded entries' shape.
- `toLowerCase` folds only the ASCII letters A-Z. JavaScript's full Unicode
  case mapping is not modelled.
- The toast's UI and `console.error` of a forecast failure. Only the toast's
  city name is recorded, in a ghost log.
- The floating-point fields of the weather and forecast responses
  (temperature, feels-like, humidity, wind speed). The logic never reads them.
