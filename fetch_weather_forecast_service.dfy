/** app/services/weather/fetch_weather_forecast_service.rb: a city name to the
    provider's five-day forecast body, served from the cache while the city's
    forecast field is fresh. The cache is read at time `now` from the snapshot
    `entries`; the geocoding service's answer is passed in as `geocode`; the
    transport is the oracle `http`. */
module FetchWeatherForecastService {
  import opened Optional
  import opened Text
  import opened RubyJson
  import opened Records
  import BaseService
  import ResponseBuilder
  import CacheStore

  const ServiceName := "Weather::FetchWeatherForecastService"
  const Display := "Weather Forecast"
  const CityRequired := "City is required"
  const FailurePrefix := "Unable to fetch weather forecast: "

  /** `make_request(:forecast, { lat:, lon: })`: no units parameter. */
  function ForecastRequest(c: Coordinates): Request {
    Request(ForecastApi, [Param("lat", PJson(c.latitude)), Param("lon", PJson(c.longitude))])
  }

  function Failure(message: string, stamp: string): ErrorEnvelope {
    BaseService.BuildError(ServiceName, BaseService.Code(ServiceError), FailurePrefix + message, stamp, retryable := true)
  }

  /** `is_fresh?(city, :forecast)` followed by `get(city)&.dig(:forecast)`: the cached
      forecast when the field is fresh and the record holds a truthy forecast. */
  function CachedForecast(entries: map<string, CacheStore.Entry>, city: string, now: int): (r: Option<Json>)
    ensures r.Some? <==>
      && CacheStore.FreshAt(entries, city, CacheStore.ForecastField, now)
      && CacheStore.RecordAt(entries, city, now).value.forecast.Some?
      && Truthy(CacheStore.RecordAt(entries, city, now).value.forecast.value)
    ensures r.Some? ==> r == CacheStore.RecordAt(entries, city, now).value.forecast
  {
    if CacheStore.FreshAt(entries, city, CacheStore.ForecastField, now) then
      match CacheStore.RecordAt(entries, city, now).value.forecast
      case Some(f) => if Truthy(f) then Some(f) else None
      case None => None
    else None
  }

  /** The same lookup made on the live store: `is_fresh?` first, then `get`, and a
      nil or `false` forecast is not served. */
  method ReadCachedForecast(store: CacheStore.Store, city: string, now: int) returns (r: Option<Json>)
    ensures r == CachedForecast(store.entries, city, now)
  {
    var isFresh := store.IsFresh(city, CacheStore.ForecastField, now);
    r := None;
    if isFresh {
      var cached := store.Get(city, now);
      if cached.Some? && cached.value.forecast.Some? && Truthy(cached.value.forecast.value) {
        r := cached.value.forecast;
      }
    }
  }

  /** The forecast request's outcome, classified. */
  function Classify(o: HttpOutcome, stamp: string): Outcome<Json> {
    match o
    case HttpRaised(m) => Err(Failure(m, stamp))
    case Responded(r) =>
      match BaseService.ValidateHttpResponse(ServiceName, Display, r, stamp)
      case Some(e) => Err(e)
      case None =>
        match ResponseBuilder.ParseForecastResponse(ResponseBuilder.Builder(r, Display))
        case Raise(m) => Err(Failure(m, stamp))
        case Value(j) => Ok(j)
  }

  /** `Weather::FetchWeatherForecastService.call(city:)`. A blank city is refused; a
      fresh cached forecast is returned with no geocoding and no request; otherwise
      a geocoding error becomes a non-retryable `GEOCODING_ERROR`, and one request
      with the geocoded position follows, whose 2xx body is returned unchanged. */
  function Call(city: Option<string>, entries: map<string, CacheStore.Entry>, now: int,
                geocode: Traced<Outcome<Coordinates>>, http: Request -> HttpOutcome, stamp: string)
    : (t: Traced<Outcome<Json>>)
    ensures !t.result.Raised?
    ensures t.result.Err? ==> t.result.error.service == Some(ServiceName)
    ensures IsBlank(city) ==>
      t == Traced(Err(ErrorEnvelope("VALIDATION_ERROR", CityRequired, Some(ServiceName), false, stamp)), [])
    ensures !IsBlank(city) && CachedForecast(entries, city.value, now).Some? ==>
      t == Traced(Ok(CacheStore.RecordAt(entries, city.value, now).value.forecast.value), [])
    ensures !IsBlank(city) && CachedForecast(entries, city.value, now).None? ==>
      && (geocode.result.Err? ==>
            t == Traced(Err(ErrorEnvelope("GEOCODING_ERROR", geocode.result.error.message, Some(ServiceName), false, stamp)), geocode.calls))
      && (geocode.result.Raised? ==>
            t == Traced(Err(ErrorEnvelope("SERVICE_ERROR", FailurePrefix + geocode.result.message, Some(ServiceName), true, stamp)), geocode.calls))
      && (geocode.result.Ok? ==>
            var c := geocode.result.value;
            var o := http(ForecastRequest(c));
            && t.calls == geocode.calls + [HttpCall(Request(ForecastApi, [Param("lat", PJson(c.latitude)), Param("lon", PJson(c.longitude))]))]
            && (o.HttpRaised? ==> t.result == Err(ErrorEnvelope("SERVICE_ERROR", FailurePrefix + o.message, Some(ServiceName), true, stamp)))
            && (o.Responded? && !IsSuccess(o.response.code) ==>
                  && t.result.Err? && t.result.error.code == "API_ERROR"
                  && t.result.error.message == ApiErrorMessage(Display, o.response)
                  && (t.result.error.retryable <==> o.response.code >= 500))
            && (o.Responded? && IsSuccess(o.response.code) ==>
                  && (o.response.body.Parsed? ==> t.result == Ok(o.response.body.value))
                  && (o.response.body.Unparsable? ==>
                        t.result == Err(ErrorEnvelope("SERVICE_ERROR", FailurePrefix + ResponseBuilder.UninitializedErrorCodes, Some(ServiceName), true, stamp)))))
  {
    if IsBlank(city) then
      Traced(Err(BaseService.BuildError(ServiceName, BaseService.Code(ValidationError), CityRequired, stamp)), [])
    else
      match CachedForecast(entries, city.value, now)
      case Some(f) => Traced(Ok(f), [])
      case None =>
        match geocode.result
        case Raised(m) => Traced(Err(Failure(m, stamp)), geocode.calls)
        case Err(e) =>
          Traced(Err(BaseService.BuildError(ServiceName, BaseService.Code(GeocodingError), e.message, stamp, retryable := false)), geocode.calls)
        case Ok(c) =>
          var req := ForecastRequest(c);
          Traced(Classify(http(req), stamp), geocode.calls + [HttpCall(req)])
  }

  /** A forecast written into the cache is served, without any external call, to
      every spelling of the city until its two hours are up, and the geocoder's
      and transport's answers do not matter. */
  lemma CachedForecastServed(entries: map<string, CacheStore.Entry>, city: string, spelling: string,
                             rec: CacheStore.CacheRecord, setAt: int, now: int,
                             geocode: Traced<Outcome<Coordinates>>, http: Request -> HttpOutcome, stamp: string)
    requires !IsBlank(Some(spelling)) && Downcase(spelling) == Downcase(city)
    requires rec.forecast.Some? && Truthy(rec.forecast.value)
    requires CacheStore.ForecastField in rec.cachedAt && rec.cachedAt[CacheStore.ForecastField] == setAt
    requires setAt <= now < setAt + 2 * CacheStore.Hour
    ensures Call(Some(spelling), CacheStore.SetAt(entries, city, rec, setAt), now, geocode, http, stamp)
      == Traced(Ok(rec.forecast.value), [])
  {
    var e := CacheStore.SetAt(entries, city, rec, setAt);
    CacheStore.CacheKeyCaseInsensitive(city, spelling);
    assert CacheStore.RecordAt(e, spelling, now) == Some(rec);
  }

  /** At exactly two hours the cached forecast is stale, and the live path (here a
      geocoding error) is taken. */
  lemma StaleForecastRefetched(entries: map<string, CacheStore.Entry>, city: string,
                               rec: CacheStore.CacheRecord, setAt: int,
                               e: ErrorEnvelope, calls: seq<Call>, http: Request -> HttpOutcome, stamp: string)
    requires !IsBlank(Some(city))
    requires CacheStore.ForecastField in rec.cachedAt && rec.cachedAt[CacheStore.ForecastField] == setAt
    ensures Call(Some(city), CacheStore.SetAt(entries, city, rec, setAt), setAt + 2 * CacheStore.Hour, Traced(Err(e), calls), http, stamp).result.error.code
      == "GEOCODING_ERROR"
  {
    CacheStore.FreshnessBoundary(CacheStore.SetAt(entries, city, rec, setAt), city, CacheStore.ForecastField, rec);
  }
}
