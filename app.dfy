/** The `App` component's state and its event handlers. The seven React state
    variables are fields; so are the things the effects leave behind them: the
    debounce timer slot and the geocoding and weather requests that have been
    sent and not yet answered. Network responses and the wall-clock hour are
    parameters chosen by the caller. */
module WeatherApp {
  import opened Options
  import opened Theme
  import opened Debounce

  /** One geocoding result. Coordinates are passed through untouched. */
  datatype City = City(name: string, country: string, latitude: real, longitude: real)

  /** The `current_weather` object of a forecast response. */
  datatype CurrentWeather = CurrentWeather(temperature: real, windspeed: real, winddirection: real, weathercode: int)

  /** The `weather` state value: the payload spread with the selected city's name. */
  datatype Reading = Reading(current: CurrentWeather, name: string)

  /** A forecast request issued by `getWeather`, remembering the arguments its
      continuation closed over. */
  datatype WeatherRequest = WeatherRequest(latitude: real, longitude: real, name: string)

  /** The weather panel's content. */
  datatype Panel = Panel(emoji: Emoji, name: string, current: CurrentWeather)

  /** What the component renders: the background, the suggestions listed in the
      dropdown (empty when the dropdown is not shown), the error message, the
      loader, the weather panel and the empty-state hint. */
  datatype Screen = Screen(
    backdrop: Backdrop,
    suggestions: seq<City>,
    message: Option<string>,
    loader: bool,
    panel: Option<Panel>,
    emptyState: bool)

  const CitiesFailedMessage: string := "\U{26A0}\U{FE0F} Failed to load cities"
  const NoWeatherDataMessage: string := "No weather data found"
  const WeatherFailedMessage: string := "\U{26A0}\U{FE0F} Failed to fetch weather data"

  class App {
    var searchInput: string
    var cities: seq<City>
    var showDropdown: bool
    var loading: bool
    var weather: Option<Reading>
    var error: string
    var timeOfDay: TimeOfDay
    /** Text captured by the scheduled, not yet fired, suggestion timer. */
    var pending: Option<string>
    /** Geocoding requests sent and not yet answered, by query text. */
    var lookups: multiset<string>
    /** Forecast requests sent and not yet answered. */
    var requests: multiset<WeatherRequest>

    /** The timer slot follows the query text, and the loader is shown only while
        some forecast request is outstanding. */
    ghost predicate Valid()
      reads this
    {
      && Settled(searchInput, pending)
      && (loading ==> |requests| > 0)
    }

    /** The initial state of the seven `useState` calls. The mount-time run of the
        suggestion effect sees the empty query and only clears `cities`, which are
        already empty. */
    constructor ()
      ensures Valid()
      ensures searchInput == "" && cities == [] && !showDropdown && !loading
      ensures weather == None && error == "" && timeOfDay == Day
      ensures pending == None && lookups == multiset{} && requests == multiset{}
    {
      searchInput, cities, showDropdown, loading := "", [], false, false;
      weather, error, timeOfDay := None, "", Day;
      pending, lookups, requests := None, multiset{}, multiset{};
    }

    /** The mount-time effect: classify the current hour. */
    method DetectTimeOfDay(hours: int)
      requires Valid()
      modifies this`timeOfDay
      ensures Valid()
      ensures timeOfDay == ClassifyHour(hours)
    {
      timeOfDay := ClassifyHour(hours);
    }

    /** The input's change handler and the suggestion effect it triggers. A new
        short text empties the suggestions and leaves no timer; a new longer
        text replaces any scheduled timer by one for itself; the same text
        again changes nothing. The dropdown flag, the error, the weather and the
        loader are never touched. */
    method ChangeQuery(text: string)
      requires Valid()
      modifies this`searchInput, this`cities, this`pending
      ensures Valid()
      ensures searchInput == text
      ensures pending == Reschedule(old(searchInput), old(pending), text)
      ensures text == old(searchInput) ==> pending == old(pending) && cities == old(cities)
      ensures text != old(searchInput) && IsShortQuery(text) ==>
                pending == None && cities == [] && Render().suggestions == []
      ensures text != old(searchInput) && !IsShortQuery(text) ==>
                pending == Some(text) && cities == old(cities)
    {
      if text != searchInput {
        pending := None;
        if IsShortQuery(text) {
          cities := [];
        } else {
          pending := Some(text);
        }
      }
      searchInput := text;
    }

    /** The debounce timer fires: its callback sends one geocoding request for
        the text it captured, which is the current query text. */
    method FireTimer()
      requires Valid() && pending.Some?
      modifies this`pending, this`lookups
      ensures Valid()
      ensures pending == None
      ensures lookups == old(lookups) + multiset{searchInput}
    {
      lookups := lookups + multiset{pending.value};
      pending := None;
    }

    /** A geocoding response for query `q` is parsed. The suggestions are replaced
        by its `results` (or by the empty list when absent) and the dropdown is
        opened, whatever the query text is now: the response is not checked
        against the current query. */
    method LookupSucceeded(q: string, results: Option<seq<City>>)
      requires Valid() && q in lookups
      modifies this`cities, this`showDropdown, this`lookups
      ensures Valid()
      ensures cities == results.GetOr([])
      ensures showDropdown
      ensures Render().suggestions == cities
      ensures lookups == old(lookups) - multiset{q}
    {
      cities := results.GetOr([]);
      showDropdown := true;
      lookups := lookups - multiset{q};
    }

    /** A geocoding request fails: the error is set, the suggestions and the
        dropdown flag stay as they were. */
    method LookupFailed(q: string)
      requires Valid() && q in lookups
      modifies this`error, this`lookups
      ensures Valid()
      ensures error == CitiesFailedMessage
      ensures lookups == old(lookups) - multiset{q}
    {
      error := CitiesFailedMessage;
      lookups := lookups - multiset{q};
    }

    /** `getWeather` up to its first await: show the loader, close the dropdown,
        clear the error and send one forecast request. The previous reading is
        kept, but hidden behind the loader. */
    method GetWeather(latitude: real, longitude: real, name: string)
      requires Valid()
      modifies this`loading, this`showDropdown, this`error, this`requests
      ensures Valid()
      ensures loading && !showDropdown && error == ""
      ensures requests == old(requests) + multiset{WeatherRequest(latitude, longitude, name)}
      ensures var s := Render(); s.loader && s.panel == None && !s.emptyState && s.suggestions == [] && s.message == None
    {
      loading := true;
      showDropdown := false;
      error := "";
      requests := requests + multiset{WeatherRequest(latitude, longitude, name)};
    }

    /** A click on the `i`-th listed suggestion fetches the weather for it. */
    method SelectCity(i: nat)
      requires Valid() && i < |Render().suggestions|
      modifies this`loading, this`showDropdown, this`error, this`requests
      ensures Valid()
      ensures loading && !showDropdown && error == ""
      ensures requests == old(requests)
                + multiset{WeatherRequest(cities[i].latitude, cities[i].longitude, cities[i].name)}
    {
      var city := cities[i];
      GetWeather(city.latitude, city.longitude, city.name);
    }

    /** A forecast response for `req` is parsed. With a `current_weather` payload
        it becomes the reading, tagged with the requested name; without one the
        error says so and the previous reading stays. Either way the loader
        goes, even if another forecast request is still outstanding. */
    method WeatherArrived(req: WeatherRequest, data: Option<CurrentWeather>)
      requires Valid() && req in requests
      modifies this`weather, this`error, this`loading, this`requests
      ensures Valid()
      ensures !loading
      ensures requests == old(requests) - multiset{req}
      ensures data.Some? ==> weather == Some(Reading(data.value, req.name)) && error == old(error)
      ensures data.None? ==> weather == old(weather) && error == NoWeatherDataMessage
      ensures Render().panel.Some? <==> weather.Some?
    {
      if data.Some? {
        weather := Some(Reading(data.value, req.name));
      } else {
        error := NoWeatherDataMessage;
      }
      loading := false;
      requests := requests - multiset{req};
    }

    /** A forecast request fails: the error is set, the reading stays, and the
        loader goes. */
    method WeatherFailed(req: WeatherRequest)
      requires Valid() && req in requests
      modifies this`error, this`loading, this`requests
      ensures Valid()
      ensures !loading
      ensures error == WeatherFailedMessage
      ensures requests == old(requests) - multiset{req}
    {
      error := WeatherFailedMessage;
      loading := false;
      requests := requests - multiset{req};
    }

    /** The rendered page. Of the loader, the weather panel and the empty-state
        hint exactly one is shown; the dropdown lists the current suggestions
        only while it is open and they are not empty; the error region shows
        the error text whenever it is not empty; the panel shows the reading;
        without a reading the background is the clear-sky photograph, whatever
        the time of day. */
    function Render(): (s: Screen)
      reads this
      ensures s.suggestions != [] <==> showDropdown && |cities| > 0
      ensures s.suggestions != [] ==> s.suggestions == cities
      ensures s.message == (if error != "" then Some(error) else None)
      ensures s.loader <==> loading
      ensures (s.loader && s.panel.None? && !s.emptyState)
           || (!s.loader && s.panel.Some? && !s.emptyState)
           || (!s.loader && s.panel.None? && s.emptyState)
      ensures s.panel.Some? <==> weather.Some? && !loading
      ensures s.panel.Some? ==>
                s.panel.value.name == weather.value.name
                && s.panel.value.emoji == WeatherEmoji(weather.value.current.weathercode)
                && s.panel.value.current == weather.value.current
      ensures weather.None? ==> s.backdrop == Clear
      ensures weather.Some? ==> s.backdrop == WeatherImage(weather.value.current.weathercode, timeOfDay)
    {
      Screen(
        backdrop := WeatherImage(if weather.Some? then weather.value.current.weathercode else 0, timeOfDay),
        suggestions := if showDropdown && |cities| > 0 then cities else [],
        message := if error != "" then Some(error) else None,
        loader := loading,
        panel := if weather.Some? && !loading
                 then Some(Panel(WeatherEmoji(weather.value.current.weathercode), weather.value.name, weather.value.current))
                 else None,
        emptyState := weather.None? && !loading)
    }
  }
}
