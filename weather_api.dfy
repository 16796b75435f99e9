/** The Open-Meteo client of `weather_integration/weather_api.py`: geocoding, the forecast
    window, the air-quality request and the combined weather record. Dates are day numbers
    (the date part of a `datetime`); today's date is a parameter, and so are the two HTTP
    requests (each returns the decoded JSON body or raises) and `strftime("%Y-%m-%d")`. */
module WeatherApi {
  import opened Strings
  import opened PyValue

  /** Days ahead the forecast reaches. */
  const ForecastDays: nat := 16

  /** `is_within_forecast_range(date)`: from today to today + 16 days, both included. */
  predicate IsWithinForecastRange(today: int, date: int) {
    today <= date <= today + ForecastDays
  }

  /** The window runs from today to 16 days ahead: earlier dates and dates 17 or more days
      ahead fall outside it. */
  lemma ForecastWindow(today: int, date: int)
    ensures date < today ==> !IsWithinForecastRange(today, date)
    ensures date > today + 16 ==> !IsWithinForecastRange(today, date)
    ensures IsWithinForecastRange(today, today) && IsWithinForecastRange(today, today + 10)
    ensures IsWithinForecastRange(today, today + 16) && !IsWithinForecastRange(today, today + 20)
  {
  }

  /** `CityCoordinates`: the fields are whatever the geocoder returned under those keys. */
  datatype City = City(name: Value, latitude: Value, longitude: Value, country: Value, admin1: Value)

  /** The part of `get_city_coordinates` after the response body is decoded. */
  function CityFromResponse(cityName: string, data: Value): (r: Outcome<City>)
    ensures r.Returned? ==> data.Dict? && Truthy(Get(data, "results"))
    ensures data.Dict? && !Truthy(Get(data, "results")) ==> r == Raised(WeatherAPIError("City '" + cityName + "' not found"))
  {
    var results :- DictGet(data, "results", Null);
    if !Truthy(results) then Raised(WeatherAPIError("City '" + cityName + "' not found"))
    else
      var listed :- Subscript(data, "results");
      var result :- Index(listed, 0);
      CityFromResult(result)
  }

  /** The `CityCoordinates` built from the first result. */
  function CityFromResult(result: Value): Outcome<City> {
    var name :- Subscript(result, "name");
    var latitude :- Subscript(result, "latitude");
    var longitude :- Subscript(result, "longitude");
    var country :- Subscript(result, "country");
    var admin1 :- DictGet(result, "admin1", Str(""));
    Returned(City(name, latitude, longitude, country, admin1))
  }

  /** `get_city_coordinates(city_name)`: a failed request and a response without the expected
      keys or entries become WeatherAPIError; the not-found error and anything else pass. */
  function GetCityCoordinates(geocode: string -> Outcome<Value>, cityName: string): (r: Outcome<City>)
    ensures r.Returned? ==> geocode(cityName).Returned? && r == CityFromResponse(cityName, geocode(cityName).value)
    ensures geocode(cityName).Returned? && r.Raised? ==> !r.exc.KeyError? && !r.exc.IndexError?
    ensures geocode(cityName).Returned? ==>
      var c := CityFromResponse(cityName, geocode(cityName).value);
      c.Raised? && (c.exc.KeyError? || c.exc.IndexError?) ==> r == Raised(WeatherAPIError("Invalid API response format"))
    ensures geocode(cityName).Raised? && geocode(cityName).exc.RequestException? ==>
      r == Raised(WeatherAPIError("Failed to fetch city coordinates: " + geocode(cityName).exc.message))
  {
    match geocode(cityName)
    case Raised(RequestException(m)) => Raised(WeatherAPIError("Failed to fetch city coordinates: " + m))
    case Raised(e) => Raised(e)
    case Returned(data) =>
      match CityFromResponse(cityName, data)
      case Raised(KeyError(_)) => Raised(WeatherAPIError("Invalid API response format"))
      case Raised(IndexError(_)) => Raised(WeatherAPIError("Invalid API response format"))
      case other => other
  }

  /** A response with no results, or an empty list of them, names the city as not found. */
  lemma CityNotFound(geocode: string -> Outcome<Value>, cityName: string)
    requires geocode(cityName).Returned? && geocode(cityName).value.Dict?
    requires !Truthy(Get(geocode(cityName).value, "results"))
    ensures GetCityCoordinates(geocode, cityName) == Raised(WeatherAPIError("City '" + cityName + "' not found"))
  {
  }

  /** Results given as a (non-empty) dict rather than a list are reported as an invalid
      response: `results[0]` raises KeyError on a dict. */
  lemma CityMalformed(geocode: string -> Outcome<Value>, cityName: string, first: Entries)
    requires geocode(cityName).Returned? && geocode(cityName).value.Dict?
    requires Get(geocode(cityName).value, "results") == Dict(first) && first != []
    ensures GetCityCoordinates(geocode, cityName) == Raised(WeatherAPIError("Invalid API response format"))
  {
    var data := geocode(cityName).value;
    assert Lookup(data.entries, "results") == Some(Dict(first));
  }

  /** A first result missing one of name, latitude, longitude or country is reported as an
      invalid response: its subscript raises KeyError, which is replaced. */
  lemma CityMissingField(geocode: string -> Outcome<Value>, cityName: string, first: Entries, rest: seq<Value>,
                         k: string)
    requires geocode(cityName).Returned? && geocode(cityName).value.Dict?
    requires Get(geocode(cityName).value, "results") == List([Dict(first)] + rest)
    requires k in ["name", "latitude", "longitude", "country"] && Lookup(first, k).None?
    ensures GetCityCoordinates(geocode, cityName) == Raised(WeatherAPIError("Invalid API response format"))
  {
    var data := geocode(cityName).value;
    var listed := List([Dict(first)] + rest);
    assert Lookup(data.entries, "results") == Some(listed);
    LookupKeys(data.entries, "results");
    assert CityFromResponse(cityName, data) == CityFromResult(Dict(first));
    LookupKeys(first, "name");
    LookupKeys(first, "latitude");
    LookupKeys(first, "longitude");
    LookupKeys(first, "country");
  }

  /** The city is built from the first result: its name, coordinates and country as given,
      and the region (`admin1`) as given or "" when the result has none. */
  lemma CityCopied(geocode: string -> Outcome<Value>, cityName: string, first: Entries, rest: seq<Value>)
    requires geocode(cityName).Returned? && geocode(cityName).value.Dict?
    requires Get(geocode(cityName).value, "results") == List([Dict(first)] + rest)
    requires forall k :: k in ["name", "latitude", "longitude", "country"] ==> Lookup(first, k).Some?
    ensures var r := GetCityCoordinates(geocode, cityName);
      r.Returned?
      && Some(r.value.name) == Lookup(first, "name") && Some(r.value.country) == Lookup(first, "country")
      && Some(r.value.latitude) == Lookup(first, "latitude") && Some(r.value.longitude) == Lookup(first, "longitude")
      && r.value.admin1 == (match Lookup(first, "admin1") case Some(a) => a case None => Str(""))
  {
    var data := geocode(cityName).value;
    var listed := List([Dict(first)] + rest);
    assert Lookup(data.entries, "results") == Some(listed);
    LookupKeys(data.entries, "results");
    assert CityFromResponse(cityName, data) == CityFromResult(Dict(first));
    CityFields(first);
  }

  /** A result holding the four required keys gives a city with their values. */
  lemma CityFields(first: Entries)
    requires forall k :: k in ["name", "latitude", "longitude", "country"] ==> Lookup(first, k).Some?
    ensures var r := CityFromResult(Dict(first));
      r.Returned?
      && Some(r.value.name) == Lookup(first, "name") && Some(r.value.country) == Lookup(first, "country")
      && Some(r.value.latitude) == Lookup(first, "latitude") && Some(r.value.longitude) == Lookup(first, "longitude")
      && r.value.admin1 == (match Lookup(first, "admin1") case Some(a) => a case None => Str(""))
  {
    LookupKeys(first, "name");
    LookupKeys(first, "latitude");
    LookupKeys(first, "longitude");
    LookupKeys(first, "country");
  }

  /** The message of the range guard, with the window length written out. */
  function BeyondRangeMessage(): (r: string)
    ensures r == "End date is beyond forecast range of 16 days"
  {
    assert NatToString(16) == "16" by {
      assert NatToString(1) == [DigitChar(1)] && DigitChar(1) == '1';
      assert DigitChar(6) == '6';
    }
    "End date is beyond forecast range of " + NatToString(ForecastDays) + " days"
  }

  /** `get_air_quality_data(lat, lon, start_date, end_date)`: only the end date is checked,
      before any request; the request's failure is wrapped; the logging line reads
      `data['hourly']['time']`, whose errors pass through. */
  function GetAirQualityData(today: int, airQuality: (Value, Value, int, int) -> Outcome<Value>,
                             lat: Value, lon: Value, start: int, end: int): (r: Outcome<Value>)
    ensures r.Returned? ==> IsWithinForecastRange(today, end) && r == airQuality(lat, lon, start, end)
    ensures var resp := airQuality(lat, lon, start, end);
      IsWithinForecastRange(today, end) && resp.Raised? && resp.exc.RequestException? ==>
      r == Raised(WeatherAPIError("Failed to fetch air quality data: " + resp.exc.message))
  {
    if !IsWithinForecastRange(today, end) then Raised(WeatherAPIError(BeyondRangeMessage()))
    else
      match airQuality(lat, lon, start, end)
      case Raised(RequestException(m)) => Raised(WeatherAPIError("Failed to fetch air quality data: " + m))
      case Raised(e) => Raised(e)
      case Returned(data) =>
        var hourly :- Subscript(data, "hourly");
        var time :- Subscript(hourly, "time");
        var _ :- Len(time);
        Returned(data)
  }

  /** An end date outside the window raises, whatever the request would have done. */
  lemma AirQualityRangeGuard(today: int, f1: (Value, Value, int, int) -> Outcome<Value>,
                             f2: (Value, Value, int, int) -> Outcome<Value>, lat: Value, lon: Value, start: int, end: int)
    requires !IsWithinForecastRange(today, end)
    ensures GetAirQualityData(today, f1, lat, lon, start, end) == Raised(WeatherAPIError("End date is beyond forecast range of 16 days"))
    ensures GetAirQualityData(today, f2, lat, lon, start, end) == GetAirQualityData(today, f1, lat, lon, start, end)
  {
  }

  /** The start date is not checked: with the end date in the window, a past start goes
      through and the response body comes back as it is. */
  lemma AirQualityStartUnchecked(today: int, airQuality: (Value, Value, int, int) -> Outcome<Value>,
                                 lat: Value, lon: Value, start: int, end: int, times: seq<Value>)
    requires IsWithinForecastRange(today, end) && start < today
    requires airQuality(lat, lon, start, end).Returned?
    requires var data := airQuality(lat, lon, start, end).value;
      data.Dict? && Get(data, "hourly").Dict? && Get(Get(data, "hourly"), "time") == List(times)
    ensures GetAirQualityData(today, airQuality, lat, lon, start, end) == airQuality(lat, lon, start, end)
  {
    var data := airQuality(lat, lon, start, end).value;
    assert Lookup(data.entries, "hourly").Some?;
    assert Lookup(Get(data, "hourly").entries, "time") == Some(List(times));
  }

  /** The record `get_weather_data` returns. */
  function WeatherRecord(city: City, start: string, end: string, airQuality: Value): (r: Value)
    ensures r.Dict? && Keys(r.entries) == ["city", "date_range", "air_quality"]
    ensures Get(r, "air_quality") == airQuality
  {
    Dict(Cons("city", Dict(Cons("name", city.name, Cons("country", city.country, Cons("admin1", city.admin1,
        Cons("coordinates", Dict(Cons("latitude", city.latitude, Cons("longitude", city.longitude, []))), []))))),
      Cons("date_range", Dict(Cons("start", Str(start), Cons("end", Str(end), []))),
      Cons("air_quality", airQuality, []))))
  }

  /** `get_weather_data(city_name, start_date, end_date)`: geocoding, then the range check and
      air-quality request, then the combined record. */
  function GetWeatherData(today: int, strftime: int -> string, geocode: string -> Outcome<Value>,
                          airQuality: (Value, Value, int, int) -> Outcome<Value>,
                          cityName: string, start: int, end: int): (r: Outcome<Value>)
    ensures r.Raised? ==> r.exc.WeatherAPIError?
  {
    var attempt :=
      (var city :- GetCityCoordinates(geocode, cityName);
       var data :- GetAirQualityData(today, airQuality, city.latitude, city.longitude, start, end);
       Returned(WeatherRecord(city, strftime(start), strftime(end), data)));
    match attempt
    case Raised(WeatherAPIError(m)) => Raised(WeatherAPIError(m))
    case Raised(e) => Raised(WeatherAPIError("Failed to get weather data: " + Message(e)))
    case Returned(v) => Returned(v)
  }

  /** Any error other than WeatherAPIError is wrapped with the "Failed to get weather data: "
      prefix; WeatherAPIError passes through unchanged. */
  lemma GetWeatherDataWraps(today: int, strftime: int -> string, geocode: string -> Outcome<Value>,
                            airQuality: (Value, Value, int, int) -> Outcome<Value>, cityName: string, start: int, end: int)
    requires GetWeatherData(today, strftime, geocode, airQuality, cityName, start, end).Raised?
    ensures var m := GetWeatherData(today, strftime, geocode, airQuality, cityName, start, end).exc.message;
      StartsWith(m, "Failed to get weather data: ")
      || GetCityCoordinates(geocode, cityName) == Raised(WeatherAPIError(m))
      || exists c :: GetCityCoordinates(geocode, cityName) == Returned(c)
           && GetAirQualityData(today, airQuality, c.latitude, c.longitude, start, end) == Raised(WeatherAPIError(m))
  {
    var c := GetCityCoordinates(geocode, cityName);
    if c.Returned? {
      var a := GetAirQualityData(today, airQuality, c.value.latitude, c.value.longitude, start, end);
      if a.Raised? && a.exc.WeatherAPIError? {
        assert GetCityCoordinates(geocode, cityName) == Returned(c.value);
      }
    }
  }

  /** Geocoding comes first: an unknown city is reported as such even when the end date is
      out of range, and no air-quality request matters. */
  lemma UnknownCityFirst(today: int, strftime: int -> string, geocode: string -> Outcome<Value>,
                         airQuality: (Value, Value, int, int) -> Outcome<Value>, cityName: string, start: int, end: int)
    requires geocode(cityName).Returned? && geocode(cityName).value.Dict?
    requires !Truthy(Get(geocode(cityName).value, "results"))
    ensures GetWeatherData(today, strftime, geocode, airQuality, cityName, start, end)
      == Raised(WeatherAPIError("City '" + cityName + "' not found"))
  {
    CityNotFound(geocode, cityName);
  }

  /** The dates of the record are the inputs as `strftime` formats them. */
  lemma WeatherRecordDates(city: City, start: string, end: string, airQuality: Value)
    ensures Get(Get(WeatherRecord(city, start, end, airQuality), "date_range"), "start") == Str(start)
    ensures Get(Get(WeatherRecord(city, start, end, airQuality), "date_range"), "end") == Str(end)
  {
  }

  /** The city block of the record copies the geocoded city. */
  lemma WeatherRecordCity(city: City, start: string, end: string, airQuality: Value)
    ensures Get(Get(WeatherRecord(city, start, end, airQuality), "city"), "name") == city.name
    ensures Get(Get(WeatherRecord(city, start, end, airQuality), "city"), "admin1") == city.admin1
    ensures Get(Get(WeatherRecord(city, start, end, airQuality), "city"), "country") == city.country
  {
  }

  /** A successful call has geocoded the city and found the end date in the window, and it
      returns the combined record for that city and the formatted dates. */
  lemma GetWeatherDataSucceeds(today: int, strftime: int -> string, geocode: string -> Outcome<Value>,
                               airQuality: (Value, Value, int, int) -> Outcome<Value>, cityName: string, start: int, end: int)
    requires GetWeatherData(today, strftime, geocode, airQuality, cityName, start, end).Returned?
    ensures var city := GetCityCoordinates(geocode, cityName);
      city.Returned? && IsWithinForecastRange(today, end)
      && var data := GetAirQualityData(today, airQuality, city.value.latitude, city.value.longitude, start, end);
      data.Returned?
      && GetWeatherData(today, strftime, geocode, airQuality, cityName, start, end)
         == Returned(WeatherRecord(city.value, strftime(start), strftime(end), data.value))
  {
  }
}
