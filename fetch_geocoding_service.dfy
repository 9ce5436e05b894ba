/** app/services/fetch_geocoding_service.rb: a city name to the coordinates of the
    provider's first match. The transport is the oracle `http`, which gives the
    outcome of `make_request` for each request. */
module FetchGeocodingService {
  import opened Optional
  import opened Text
  import opened RubyJson
  import opened Records
  import BaseService
  import ResponseBuilder

  /** The class name that `build_error` writes into `service`. */
  const ServiceName := "FetchGeocodingService"
  /** The name used in the `API_ERROR` text. */
  const Display := "Geocoding"
  const CityRequired := "City is required"
  /** The fixed message of the `SERVICE_ERROR` every exception becomes. */
  const NotFound := "Unable to find coordinates for the specified city"

  /** `make_request(:geocoding, { q: city, limit: 1 })`. */
  function GeocodingRequest(city: string): Request {
    Request(GeocodingApi, [Param("q", PStr(city)), Param("limit", PInt(1))])
  }

  /** The envelope of the `rescue StandardError` branch: the exception's own text is
      dropped. */
  function NotFoundError(stamp: string): ErrorEnvelope {
    BaseService.BuildError(ServiceName, BaseService.Code(ServiceError), NotFound, stamp, retryable := true)
  }

  /** A 2xx body the builder turns into coordinates. */
  predicate HasCandidate(r: HttpResponse) {
    r.body.Parsed? && ResponseBuilder.HasCandidate(r.body.value)
  }

  /** `FetchGeocodingService.call(city:)`. A blank city is refused before any request;
      otherwise exactly one request is made, a non-2xx answer becomes `API_ERROR`,
      a 2xx answer the first candidate's coordinates, and every exception (the
      transport's, or the builder's on an empty or unparsable body) the fixed
      retryable `SERVICE_ERROR`. */
  function Call(city: Option<string>, http: Request -> HttpOutcome, stamp: string): (t: Traced<Outcome<Coordinates>>)
    ensures !t.result.Raised?
    ensures t.result.Err? ==> t.result.error.service == Some(ServiceName) && t.result.error.timestamp == stamp
    ensures IsBlank(city) ==>
      t == Traced(Err(ErrorEnvelope("VALIDATION_ERROR", CityRequired, Some(ServiceName), false, stamp)), [])
    ensures !IsBlank(city) ==> t.calls == [HttpCall(Request(GeocodingApi, [Param("q", PStr(city.value)), Param("limit", PInt(1))]))]
    ensures !IsBlank(city) ==>
      var o := http(GeocodingRequest(city.value));
      && (o.HttpRaised? ==> t.result == Err(ErrorEnvelope("SERVICE_ERROR", NotFound, Some(ServiceName), true, stamp)))
      && (o.Responded? && !IsSuccess(o.response.code) ==>
            && t.result.Err? && t.result.error.code == "API_ERROR"
            && t.result.error.message == ApiErrorMessage(Display, o.response)
            && (t.result.error.retryable <==> o.response.code >= 500))
      && (o.Responded? && IsSuccess(o.response.code) ==>
            && (t.result.Ok? <==> HasCandidate(o.response))
            && (t.result.Ok? ==> t.result.value == ResponseBuilder.ParseGeocodingResponse(ResponseBuilder.Builder(o.response, Display)).value)
            && (!HasCandidate(o.response) ==> t.result == Err(NotFoundError(stamp))))
  {
    if IsBlank(city) then
      Traced(Err(BaseService.BuildError(ServiceName, BaseService.Code(ValidationError), CityRequired, stamp)), [])
    else
      var req := GeocodingRequest(city.value);
      var result :=
        match http(req)
        case HttpRaised(_) => Err(NotFoundError(stamp))
        case Responded(r) =>
          (match BaseService.ValidateHttpResponse(ServiceName, Display, r, stamp)
           case Some(e) => Err(e)
           case None =>
             (match ResponseBuilder.ParseGeocodingResponse(ResponseBuilder.Builder(r, Display))
              case Raise(_) => Err(NotFoundError(stamp))
              case Value(c) => Ok(c)));
      Traced(result, [HttpCall(req)])
  }

  /** On success the coordinates are the first candidate's `lat`, `lon`, `name` and
      `country`, whatever the later candidates hold. */
  lemma FoundIsFirstCandidate(city: string, http: Request -> HttpOutcome, stamp: string, first: seq<Member>, rest: seq<Json>)
    requires !IsBlank(Some(city))
    requires http(GeocodingRequest(city)).Responded?
    requires var r := http(GeocodingRequest(city)).response;
      IsSuccess(r.code) && r.body == Parsed(JArr([JObj(first)] + rest))
    ensures Call(Some(city), http, stamp).result
      == Ok(Coordinates(Lookup(first, "lat"), Lookup(first, "lon"), Lookup(first, "name"), Lookup(first, "country")))
  {
    var r := http(GeocodingRequest(city)).response;
    assert r.body.value.items[0] == JObj(first);
  }

  /** A city the provider does not know (a 2xx answer with an empty array) is the
      retryable `SERVICE_ERROR` with the fixed message, not an `API_ERROR`. */
  lemma UnknownCityIsServiceError(city: string, http: Request -> HttpOutcome, stamp: string)
    requires !IsBlank(Some(city))
    requires http(GeocodingRequest(city)).Responded?
    requires var r := http(GeocodingRequest(city)).response;
      IsSuccess(r.code) && r.body == Parsed(JArr([]))
    ensures var e := Call(Some(city), http, stamp).result;
      e.Err? && e.error.code == "SERVICE_ERROR" && e.error.message == NotFound && e.error.retryable
  {
  }

  /** The result depends on the transport only through the answer to the one request
      made, and never on the text of an exception. */
  lemma OnlyTheAnswerMatters(city: Option<string>, h1: Request -> HttpOutcome, h2: Request -> HttpOutcome, stamp: string)
    requires !IsBlank(city) ==>
      var o1 := h1(GeocodingRequest(city.value));
      var o2 := h2(GeocodingRequest(city.value));
      o1 == o2 || (o1.HttpRaised? && o2.HttpRaised?)
    ensures Call(city, h1, stamp) == Call(city, h2, stamp)
  {
  }
}
