/** Event sequences driven through `App`, each ending in an observation of the
    rendered page or the state. Only the methods' contracts are used. */
module Scenarios {
  import opened Options
  import opened Theme
  import opened WeatherApp

  /** Type "Lon", let the timer fire, get London back, click it, get a reading
      with weather code 2: the panel shows London with the sun-behind-cloud
      emoji, the dropdown is closed and no error is shown. */
  method LookUpLondon() returns (s: Screen, sent: multiset<WeatherRequest>)
    ensures s.panel == Some(Panel(SunBehindSmallCloud, "London", CurrentWeather(15.2, 10.0, 200.0, 2)))
    ensures !s.loader && !s.emptyState && s.suggestions == [] && s.message == None
    ensures sent == multiset{WeatherRequest(51.5, -0.12, "London")}
  {
    var app := new App();
    app.ChangeQuery("Lon");
    app.FireTimer();
    var london := City("London", "UK", 51.5, -0.12);
    app.LookupSucceeded("Lon", Some([london]));
    assert app.Render().suggestions == [london];
    app.SelectCity(0);
    sent := app.requests;
    app.WeatherArrived(WeatherRequest(51.5, -0.12, "London"), Some(CurrentWeather(15.2, 10.0, 200.0, 2)));
    s := app.Render();
  }

  /** Type "Lon", let the timer fire, type "London", let the timer fire; the
      answer for "London" arrives first and the answer for "Lon" after it. The
      suggestions end up being those for "Lon" although "London" is typed. */
  method LateLookupWins(forLon: seq<City>, forLondon: seq<City>) returns (shown: seq<City>, typed: string)
    ensures shown == forLon
    ensures typed == "London"
  {
    var app := new App();
    app.ChangeQuery("Lon");
    app.FireTimer();
    assert "Lon" in app.lookups;
    app.ChangeQuery("London");
    app.FireTimer();
    assert app.lookups == multiset{"Lon", "London"};
    app.LookupSucceeded("London", Some(forLondon));
    app.LookupSucceeded("Lon", Some(forLon));
    shown, typed := app.cities, app.searchInput;
  }

  /** Typing "Lo" schedules a lookup; deleting back to "L" within the quiet period
      cancels it and empties the suggestions, and a single character outside the
      Basic Multilingual Plane counts as two code units and schedules one. */
  method ShortQueryCancels() returns (afterDelete: Option<string>, afterEmoji: Option<string>)
    ensures afterDelete == None
    ensures afterEmoji == Some("\U{1F324}")
  {
    var app := new App();
    app.ChangeQuery("Lo");
    app.ChangeQuery("L");
    afterDelete := app.pending;
    app.ChangeQuery("\U{1F324}");
    afterEmoji := app.pending;
  }

  /** Two forecast requests overlap (London, then Paris) and their answers arrive
      in the opposite order. The London reading, the older request, is what is
      shown in the end, and the loader went away with the first answer while
      the London request was still outstanding. */
  method OverlappingForecasts(paris: CurrentWeather, london: CurrentWeather)
    returns (loaderAfterFirst: bool, outstanding: nat, s: Screen)
    ensures !loaderAfterFirst && outstanding == 1
    ensures s.panel.Some? && s.panel.value.name == "London" && s.panel.value.current == london
  {
    var app := new App();
    var toLondon := WeatherRequest(51.5, -0.12, "London");
    var toParis := WeatherRequest(48.85, 2.35, "Paris");
    app.GetWeather(51.5, -0.12, "London");
    app.GetWeather(48.85, 2.35, "Paris");
    app.WeatherArrived(toParis, Some(paris));
    loaderAfterFirst, outstanding := app.loading, |app.requests|;
    app.WeatherArrived(toLondon, Some(london));
    s := app.Render();
  }

  /** A forecast without `current_weather` after a successful one keeps the old
      reading on screen, with the no-data message above it. */
  method MissingDataKeepsReading(first: CurrentWeather) returns (s: Screen)
    ensures s.panel == Some(Panel(WeatherEmoji(first.weathercode), "Oslo", first))
    ensures s.message == Some("No weather data found")
  {
    var app := new App();
    var oslo := WeatherRequest(59.91, 10.75, "Oslo");
    app.GetWeather(59.91, 10.75, "Oslo");
    app.WeatherArrived(oslo, Some(first));
    var bergen := WeatherRequest(60.39, 5.32, "Bergen");
    app.GetWeather(60.39, 5.32, "Bergen");
    app.WeatherArrived(bergen, None);
    s := app.Render();
  }
}
