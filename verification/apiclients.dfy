/** What the three provider clients do with a response once the HTTP call and
    the JSON decoding are done: the weather URL, the metric/imperial field
    selection, the fixed quote attribution and the first geocoding feature. */
module ApiClients {
  import opened Wrappers
  import opened Db
  import Text

  // ---------------------------------------------------------------------
  // Weather
  // ---------------------------------------------------------------------

  const WeatherBase := "https://wttr.in/"
  const WeatherFormat := "?format=j1"

  /** The weather endpoint: country first, then city, joined by `-`. */
  function WeatherUrl(city: string, country: string): (url: string)
    ensures |url| == |WeatherBase| + |country| + 1 + |city| + |WeatherFormat|
    ensures url[..|WeatherBase|] == WeatherBase
    ensures url[|url| - |WeatherFormat|..] == WeatherFormat
    ensures url[|WeatherBase|..|url| - |WeatherFormat|] == country + "-" + city
  {
    var url := WeatherBase + country + "-" + city + WeatherFormat;
    assert url[|WeatherBase|..|url| - |WeatherFormat|] == country + "-" + city;
    url
  }

  /** When the country has no `-`, the URL determines both city and country:
      no two requests for different places share an address. */
  lemma WeatherUrlInjective(city1: string, country1: string, city2: string, country2: string)
    requires '-' !in country1 && '-' !in country2
    requires WeatherUrl(city1, country1) == WeatherUrl(city2, country2)
    ensures city1 == city2 && country1 == country2
  {
    var p := country1 + "-" + city1;
    assert p == country2 + "-" + city2;
    Text.SplitAtFirst(country1, '-', city1);
    Text.SplitAtFirst(country2, '-', city2);
    assert country1 == Text.Split(p, '-')[0] == country2;
    assert city1 == p[|country1| + 1..] == city2;
  }

  /** One decoded entry of `current_condition`, with the provider's parallel
      metric and imperial fields. */
  datatype CurrentCondition = CurrentCondition(
    feelsLikeC: string,
    feelsLikeF: string,
    tempC: string,
    tempF: string,
    uvIndex: string,
    windDir16Point: string,
    windDirDegree: string,
    windspeedKmph: string,
    windspeedMiles: string,
    precipInches: string,
    precipMM: string,
    humidity: string,
    pressure: string,
    pressureInches: string,
    clouds: string,
    visibility: string,
    visibilityMiles: string,
    observationTime: string)

  datatype UnitSystem = MetricUnits | ImperialUnits

  /** The spellings of `units` the weather client recognises. */
  function UnitSystemOf(units: string): (r: Option<UnitSystem>)
    ensures r == Some(ImperialUnits) <==> units == Imperial || units == "i"
    ensures r == Some(MetricUnits) <==> units == Metric || units == "m"
  {
    if units == Imperial || units == "i" then Some(ImperialUnits)
    else if units == Metric || units == "m" then Some(MetricUnits)
    else None
  }

  /** Every unit value a user record may hold selects a unit system. */
  lemma ValidUnitsRecognised(units: string)
    requires ValidUnits(units)
    ensures UnitSystemOf(units).Some?
  {
  }

  /** The weather fields of one condition in the chosen unit system, or all
      of them empty when the unit string is not recognised. */
  function Project(c: CurrentCondition, system: Option<UnitSystem>, city: string, country: string, units: string): WeatherInfo
  {
    match system
    case Some(ImperialUnits) =>
      WeatherInfo(c.tempF, c.feelsLikeF, "", c.uvIndex, c.windspeedMiles + " " + c.windDir16Point,
                  c.precipInches, c.humidity, c.pressureInches, c.clouds, c.visibilityMiles,
                  city, country, units)
    case Some(MetricUnits) =>
      WeatherInfo(c.tempC, c.feelsLikeC, "", c.uvIndex, c.windspeedKmph + " " + c.windDirDegree,
                  c.precipMM, c.humidity, c.pressure, c.clouds, c.visibility,
                  city, country, units)
    case None =>
      WeatherInfo("", "", "", "", "", "", "", "", "", "", city, country, units)
  }

  /** The weather fields of a result are all empty. */
  predicate NoWeatherData(w: WeatherInfo) {
    w.temp == "" && w.feelsLike == "" && w.weatherDescription == "" && w.uvIndex == ""
    && w.wind == "" && w.precipitation == "" && w.humidity == "" && w.pressure == ""
    && w.clouds == "" && w.visibility == ""
  }

  /** `GetWeatherInfo` after decoding. `conditions` is the decoded
      `current_condition` list, or `None` when the request or the read of the
      body failed. */
  function WeatherFromResponse(conditions: Option<seq<CurrentCondition>>, city: string, country: string, units: string): (r: Option<WeatherInfo>)
    ensures r.Some? <==> conditions.Some? && |conditions.value| > 0
    ensures r.Some? ==> r.value.city == city && r.value.country == country && r.value.units == units
    ensures r.Some? ==> r.value.weatherDescription == ""
    ensures r.Some? && (units == Imperial || units == "i") ==>
      var c := conditions.value[0];
      && r.value.temp == c.tempF && r.value.feelsLike == c.feelsLikeF && r.value.uvIndex == c.uvIndex
      && r.value.wind == c.windspeedMiles + " " + c.windDir16Point
      && r.value.precipitation == c.precipInches && r.value.humidity == c.humidity
      && r.value.pressure == c.pressureInches && r.value.clouds == c.clouds
      && r.value.visibility == c.visibilityMiles
    ensures r.Some? && (units == Metric || units == "m") ==>
      var c := conditions.value[0];
      && r.value.temp == c.tempC && r.value.feelsLike == c.feelsLikeC && r.value.uvIndex == c.uvIndex
      && r.value.wind == c.windspeedKmph + " " + c.windDirDegree
      && r.value.precipitation == c.precipMM && r.value.humidity == c.humidity
      && r.value.pressure == c.pressure && r.value.clouds == c.clouds
      && r.value.visibility == c.visibility
    ensures r.Some? && UnitSystemOf(units).None? ==> NoWeatherData(r.value)
  {
    match conditions
    case None => None
    case Some(cs) =>
      if |cs| == 0 then None
      else Some(Project(cs[0], UnitSystemOf(units), city, country, units))
  }

  // ---------------------------------------------------------------------
  // Quotes
  // ---------------------------------------------------------------------

  /** The decoded quote body. A malformed body decodes to empty fields, since
      the decoding error is ignored. */
  datatype QuoteData = QuoteData(text: string, author: string)

  const QuoteSource := "The Quote Hub"

  /** `GetQuote` after decoding; `data` is `None` when the request failed. */
  function QuoteFromResponse(data: Option<QuoteData>, lang: string): (r: Option<Quote>)
    ensures r.Some? <==> data.Some?
    ensures r.Some? ==> r.value.text == data.value.text && r.value.author == data.value.author
    ensures r.Some? ==> r.value.source == QuoteSource && r.value.language == "en" && r.value.url == ""
  {
    match data
    case None => None
    case Some(d) => Some(Quote(d.text, d.author, QuoteSource, "", "en"))
  }

  /** The language hint is accepted but has no effect. */
  lemma QuoteIgnoresLanguage(data: Option<QuoteData>, lang1: string, lang2: string)
    ensures QuoteFromResponse(data, lang1) == QuoteFromResponse(data, lang2)
  {
  }

  // ---------------------------------------------------------------------
  // Reverse geocoding
  // ---------------------------------------------------------------------

  /** The `properties` object of one decoded geocoding feature. */
  datatype Feature = Feature(country: string, city: string, state: string, zip: string, lat: string, lon: string)

  datatype GeoError = RequestFailed | NoFeatures

  /** `GetLocationInformation` after decoding: the first feature, field by
      field. An empty feature list is an error here. */
  function LocationFromResponse(features: Result<seq<Feature>, GeoError>): (r: Result<LocationInfo, GeoError>)
    ensures features.Failure? ==> r == Failure(features.error)
    ensures features.Success? && |features.value| == 0 ==> r == Failure(NoFeatures)
    ensures features.Success? && |features.value| > 0 ==>
      var f := features.value[0];
      r == Success(LocationInfo(f.country, f.city, f.state, f.zip, f.lat, f.lon))
  {
    match features
    case Failure(e) => Failure(e)
    case Success(fs) =>
      if |fs| == 0 then Failure(NoFeatures)
      else Success(LocationInfo(fs[0].country, fs[0].city, fs[0].state, fs[0].zip, fs[0].lat, fs[0].lon))
  }
}
