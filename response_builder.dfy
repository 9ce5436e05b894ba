/** lib/open_weather_sdk/response_builder.rb: projection of the provider's JSON
    bodies onto the hashes the services return. The class refers to `ERROR_CODES`
    and `build_error`, which it does not define, so every path meant to return an
    error envelope raises `NameError` instead. */
module ResponseBuilder {
  import opened RubyJson
  import opened Records

  /** `ResponseBuilder.new(response, service_name)`: the two fields, stored as given
      and never updated. */
  datatype Builder = Builder(response: HttpResponse, serviceName: string)

  /** The message of the `NameError` raised on evaluating `ERROR_CODES[...]`. */
  const UninitializedErrorCodes := "uninitialized constant OpenWeatherSdk::ResponseBuilder::ERROR_CODES"

  /** A parsed geocoding body that `parse_geocoding_response` turns into
      coordinates: a non-empty array whose first entry a string index accepts (a
      hash or a string), or a non-empty string, whose `first` is its first
      character. */
  predicate HasCandidate(data: Json) {
    (data.JArr? && |data.items| > 0 && (data.items[0].JObj? || data.items[0].JStr?))
    || (data.JStr? && data.s != "")
  }

  /** `parse_geocoding_response`: the first candidate's `lat`, `lon`, `name` and
      `country`. An unparsable body and an empty array raise `NameError`; a
      non-empty string body gives four nils. */
  function ParseGeocodingResponse(b: Builder): (r: Eval<Coordinates>)
    ensures b.response.body.Unparsable? ==> r == Raise(UninitializedErrorCodes)
    ensures b.response.body == Parsed(JArr([])) ==> r == Raise(UninitializedErrorCodes)
    ensures r.Value? <==> b.response.body.Parsed? && HasCandidate(b.response.body.value)
    ensures r.Value? && b.response.body.value.JArr? && b.response.body.value.items[0].JObj? ==>
      var ms := b.response.body.value.items[0].members;
      r.value == Coordinates(Lookup(ms, "lat"), Lookup(ms, "lon"), Lookup(ms, "name"), Lookup(ms, "country"))
    ensures r.Value? && b.response.body.value.JStr? ==> r.value == Coordinates(JNull, JNull, JNull, JNull)
  {
    match b.response.body
    case Unparsable => Raise(UninitializedErrorCodes)
    case Parsed(data) =>
      match IsEmpty(data)
      case Raise(m) => Raise(m)
      case Value(empty) =>
        if empty then Raise(UninitializedErrorCodes)
        else
          match First(data)
          case Raise(m) => Raise(m)
          case Value(c) =>
            match Index(c, "lat")
            case Raise(m) => Raise(m)
            case Value(lat) =>
              if data.JStr? then
                ShortStringIndex(c.s, "lat");
                ShortStringIndex(c.s, "lon");
                ShortStringIndex(c.s, "name");
                ShortStringIndex(c.s, "country");
                Value(Coordinates(lat, Index(c, "lon").value, Index(c, "name").value, Index(c, "country").value))
              else
              var lon := Index(c, "lon").value;
              var name := Index(c, "name").value;
              var country := Index(c, "country").value;
              Value(Coordinates(lat, lon, name, country))
  }

  /** A well-formed current-weather body: `main` and `sys` are objects and `weather`
      a non-empty array whose first entry is an object. */
  predicate WellFormedWeather(data: Json) {
    data.JObj?
    && Lookup(data.members, "main").JObj?
    && Lookup(data.members, "sys").JObj?
    && Lookup(data.members, "weather").JArr?
    && |Lookup(data.members, "weather").items| > 0
    && Lookup(data.members, "weather").items[0].JObj?
  }

  /** `parse_weather_response`: temperature = main.temp, condition =
      weather[0].description, humidity = main.humidity, city = name, country =
      sys.country, evaluated in that order; an unparsable body raises `NameError`. */
  function ParseWeatherResponse(b: Builder): (r: Eval<CurrentWeather>)
    ensures b.response.body.Unparsable? ==> r == Raise(UninitializedErrorCodes)
    ensures r.Value? ==> b.response.body.Parsed? && (b.response.body.value.JObj? || b.response.body.value.JStr?)
    ensures b.response.body.Parsed? && WellFormedWeather(b.response.body.value) ==>
      var ms := b.response.body.value.members;
      var main := Lookup(ms, "main").members;
      r == Value(CurrentWeather(
        Lookup(main, "temp"),
        Lookup(Lookup(ms, "weather").items[0].members, "description"),
        Lookup(main, "humidity"),
        Lookup(ms, "name"),
        Lookup(Lookup(ms, "sys").members, "country")))
  {
    match b.response.body
    case Unparsable => Raise(UninitializedErrorCodes)
    case Parsed(data) =>
      match Index2(data, "main", "temp")
      case Raise(m) => Raise(m)
      case Value(temp) =>
        match Index(data, "weather")
        case Raise(m) => Raise(m)
        case Value(weather) =>
          match First(weather)
          case Raise(m) => Raise(m)
          case Value(w0) =>
            match Index(w0, "description")
            case Raise(m) => Raise(m)
            case Value(condition) =>
              match Index2(data, "main", "humidity")
              case Raise(m) => Raise(m)
              case Value(humidity) =>
                match Index(data, "name")
                case Raise(m) => Raise(m)
                case Value(name) =>
                  match Index2(data, "sys", "country")
                  case Raise(m) => Raise(m)
                  case Value(country) => Value(CurrentWeather(temp, condition, humidity, name, country))
  }

  /** `parse_forecast_response`: the parsed body unchanged; an unparsable body
      raises `NameError`. */
  function ParseForecastResponse(b: Builder): (r: Eval<Json>)
    ensures r.Value? <==> b.response.body.Parsed?
    ensures r.Value? ==> r.value == b.response.body.value
    ensures r.Raise? ==> r.message == UninitializedErrorCodes
  {
    match b.response.body
    case Unparsable => Raise(UninitializedErrorCodes)
    case Parsed(data) => Value(data)
  }

  /** A string `weather` field does not raise: its `first` is its first character,
      which contains no `description`, so the condition is nil and the other
      fields are read as for a well-formed body. */
  lemma StringWeatherHasNilCondition(r: HttpResponse, ms: seq<Member>, w: string)
    requires r.body == Parsed(JObj(ms))
    requires Lookup(ms, "main").JObj? && Lookup(ms, "sys").JObj?
    requires Lookup(ms, "weather") == JStr(w)
    ensures
      var main := Lookup(ms, "main").members;
      ParseWeatherResponse(Builder(r, "Current Weather")) == Value(CurrentWeather(
        Lookup(main, "temp"), JNull, Lookup(main, "humidity"), Lookup(ms, "name"),
        Lookup(Lookup(ms, "sys").members, "country")))
  {
    ShortStringIndex(w[..if w == "" then 0 else 1], "description");
  }

  /** The London example: the first of the candidates gives the coordinates, the
      others are ignored. */
  lemma GeocodingUsesFirstCandidate(r: HttpResponse, first: seq<Member>, others: seq<Json>)
    requires r.body == Parsed(JArr([JObj(first)] + others))
    ensures ParseGeocodingResponse(Builder(r, "Geocoding")) ==
      Value(Coordinates(Lookup(first, "lat"), Lookup(first, "lon"), Lookup(first, "name"), Lookup(first, "country")))
  {
  }
}
