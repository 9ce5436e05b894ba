/** app/services/fetch_current_weather_service.rb: a city name to its current
    weather, through the geocoding service and one metric weather request. The
    geocoding service's answer is passed in as `geocode` (what
    `FetchGeocodingService.call(city: city)` gave, with the requests it made); the
    transport is the oracle `http`. */
module FetchCurrentWeatherService {
  import opened Optional
  import opened Text
  import opened RubyJson
  import opened Records
  import BaseService
  import ResponseBuilder
  import FetchGeocodingService

  const ServiceName := "FetchCurrentWeatherService"
  const Display := "Current Weather"
  const CityRequired := "City is required"
  /** The prefix of the `SERVICE_ERROR` text built from an exception's message. */
  const FailurePrefix := "Unable to fetch weather data: "

  /** `make_request(:current_weather, { lat:, lon:, units: 'metric' })`. */
  function WeatherRequest(c: Coordinates): Request {
    Request(CurrentWeatherApi, [Param("lat", PJson(c.latitude)), Param("lon", PJson(c.longitude)), Param("units", PStr("metric"))])
  }

  /** The envelope of the `rescue StandardError` branch. */
  function Failure(message: string, stamp: string): ErrorEnvelope {
    BaseService.BuildError(ServiceName, BaseService.Code(ServiceError), FailurePrefix + message, stamp, retryable := true)
  }

  /** The weather request's outcome, classified. */
  function Classify(o: HttpOutcome, stamp: string): Outcome<CurrentWeather> {
    match o
    case HttpRaised(m) => Err(Failure(m, stamp))
    case Responded(r) =>
      match BaseService.ValidateHttpResponse(ServiceName, Display, r, stamp)
      case Some(e) => Err(e)
      case None =>
        match ResponseBuilder.ParseWeatherResponse(ResponseBuilder.Builder(r, Display))
        case Raise(m) => Err(Failure(m, stamp))
        case Value(w) => Ok(w)
  }

  /** `FetchCurrentWeatherService.call(city:)`. A blank city is refused before
      geocoding; a geocoding error becomes a non-retryable `GEOCODING_ERROR` with the
      same message; otherwise one request with the geocoded position and metric
      units follows, classified as the geocoding answer is, and every exception
      becomes a retryable `SERVICE_ERROR` carrying its text. */
  function Call(city: Option<string>, geocode: Traced<Outcome<Coordinates>>, http: Request -> HttpOutcome, stamp: string)
    : (t: Traced<Outcome<CurrentWeather>>)
    ensures !t.result.Raised?
    ensures t.result.Err? ==> t.result.error.service == Some(ServiceName)
    ensures IsBlank(city) ==>
      t == Traced(Err(ErrorEnvelope("VALIDATION_ERROR", CityRequired, Some(ServiceName), false, stamp)), [])
    ensures !IsBlank(city) && geocode.result.Err? ==>
      t == Traced(Err(ErrorEnvelope("GEOCODING_ERROR", geocode.result.error.message, Some(ServiceName), false, stamp)), geocode.calls)
    ensures !IsBlank(city) && geocode.result.Raised? ==>
      t == Traced(Err(ErrorEnvelope("SERVICE_ERROR", FailurePrefix + geocode.result.message, Some(ServiceName), true, stamp)), geocode.calls)
    ensures !IsBlank(city) && geocode.result.Ok? ==>
      var c := geocode.result.value;
      var o := http(WeatherRequest(c));
      && t.calls == geocode.calls + [HttpCall(Request(CurrentWeatherApi,
           [Param("lat", PJson(c.latitude)), Param("lon", PJson(c.longitude)), Param("units", PStr("metric"))]))]
      && (o.HttpRaised? ==> t.result == Err(ErrorEnvelope("SERVICE_ERROR", FailurePrefix + o.message, Some(ServiceName), true, stamp)))
      && (o.Responded? && !IsSuccess(o.response.code) ==>
            && t.result.Err? && t.result.error.code == "API_ERROR"
            && t.result.error.message == ApiErrorMessage(Display, o.response)
            && (t.result.error.retryable <==> o.response.code >= 500))
      && (o.Responded? && IsSuccess(o.response.code) && o.response.body.Unparsable? ==>
            t.result == Err(ErrorEnvelope("SERVICE_ERROR", FailurePrefix + ResponseBuilder.UninitializedErrorCodes, Some(ServiceName), true, stamp)))
      && (o.Responded? && IsSuccess(o.response.code) ==>
            var p := ResponseBuilder.ParseWeatherResponse(ResponseBuilder.Builder(o.response, Display));
            && (p.Raise? ==> t.result == Err(ErrorEnvelope("SERVICE_ERROR", FailurePrefix + p.message, Some(ServiceName), true, stamp)))
            && (p.Value? ==> t.result == Ok(p.value)))
      && (o.Responded? && IsSuccess(o.response.code) && o.response.body.Parsed? && ResponseBuilder.WellFormedWeather(o.response.body.value) ==>
            var ms := o.response.body.value.members;
            t.result == Ok(CurrentWeather(
              Lookup(Lookup(ms, "main").members, "temp"),
              Lookup(Lookup(ms, "weather").items[0].members, "description"),
              Lookup(Lookup(ms, "main").members, "humidity"),
              Lookup(ms, "name"),
              Lookup(Lookup(ms, "sys").members, "country"))))
  {
    if IsBlank(city) then
      Traced(Err(BaseService.BuildError(ServiceName, BaseService.Code(ValidationError), CityRequired, stamp)), [])
    else
      match geocode.result
      case Raised(m) => Traced(Err(Failure(m, stamp)), geocode.calls)
      case Err(e) =>
        Traced(Err(BaseService.BuildError(ServiceName, BaseService.Code(GeocodingError), e.message, stamp, retryable := false)), geocode.calls)
      case Ok(c) =>
        var req := WeatherRequest(c);
        Traced(Classify(http(req), stamp), geocode.calls + [HttpCall(req)])
  }

  /** With the real geocoding service: a city the provider does not know gives
      `GEOCODING_ERROR` with the geocoder's fixed message, not retryable, and no
      weather request is made. */
  lemma UnknownCityIsGeocodingError(city: string, http: Request -> HttpOutcome, stamp: string)
    requires !IsBlank(Some(city))
    requires http(FetchGeocodingService.GeocodingRequest(city)).Responded?
    requires var r := http(FetchGeocodingService.GeocodingRequest(city)).response;
      IsSuccess(r.code) && r.body == Parsed(JArr([]))
    ensures var t := Call(Some(city), FetchGeocodingService.Call(Some(city), http, stamp), http, stamp);
      && t.result == Err(ErrorEnvelope("GEOCODING_ERROR", FetchGeocodingService.NotFound, Some(ServiceName), false, stamp))
      && t.calls == [HttpCall(FetchGeocodingService.GeocodingRequest(city))]
  {
    FetchGeocodingService.UnknownCityIsServiceError(city, http, stamp);
  }

  /** The geocoder's retryable flag is never passed on: a geocoding error is not
      retryable here, whatever it was there. */
  lemma GeocodingRetryableDropped(city: Option<string>, e: ErrorEnvelope, calls: seq<Call>, http: Request -> HttpOutcome, stamp: string)
    requires !IsBlank(city)
    ensures var t := Call(city, Traced(Err(e), calls), http, stamp);
      t.result.Err? && !t.result.error.retryable && t.result.error.message == e.message
      && t == Call(city, Traced(Err(e.(retryable := !e.retryable, code := "X")), calls), http, stamp)
  {
  }
}
