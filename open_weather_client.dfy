/** app/lib/clients/open_weather_client.rb: the endpoint table and `parse_response`.
    `make_request` as intended (the HTTP transport) is the `http` oracle of the
    services; `MakeRequestAsWritten` is the method as the file has it. */
module OpenWeatherClient {
  import opened Optional
  import opened RubyJson
  import opened Records
  import BaseService

  const ServiceName := "Clients::OpenWeatherClient"

  /** `BASE_URLS` (frozen). */
  const BaseUrls: map<Endpoint, string> := map[
    GeocodingApi := "http://api.openweathermap.org/geo/1.0/direct",
    CurrentWeatherApi := "https://api.openweathermap.org/data/2.5/weather",
    ForecastApi := "https://api.openweathermap.org/data/2.5/forecast"]

  /** Exactly the three endpoints, each with its own URL. */
  lemma BaseUrlsTable()
    ensures forall e: Endpoint :: e in BaseUrls
    ensures |BaseUrls.Keys| == 3
    ensures BaseUrls[GeocodingApi] != BaseUrls[CurrentWeatherApi] && BaseUrls[CurrentWeatherApi] != BaseUrls[ForecastApi]
    ensures BaseUrls[ForecastApi] != BaseUrls[GeocodingApi]
  {
    assert BaseUrls.Keys == {GeocodingApi, CurrentWeatherApi, ForecastApi};
    forall e: Endpoint
      ensures e in BaseUrls
    {
      match e
      case GeocodingApi =>
      case CurrentWeatherApi =>
      case ForecastApi =>
    }
  }

  /** The NoMethodError of open_weather_client.rb:10: `BaseService` has no class
      method `check_api_rate_limit`. */
  const MissingRateLimitCheck := "undefined method 'check_api_rate_limit' for class BaseService"

  /** `make_request` as written: the rate-limit call on its first line raises
      before the URL is built, so it raises for every request and never reaches
      `Net::HTTP`. */
  function MakeRequestAsWritten(q: Request): (o: HttpOutcome)
    ensures o.HttpRaised? && o.message == MissingRateLimitCheck
  {
    HttpRaised(MissingRateLimitCheck)
  }

  /** `parse_response(response, display)`: a non-2xx response is an `API_ERROR`
      retryable for 5xx; a 2xx body is parsed, and an unparsable one is a
      non-retryable `PARSING_ERROR`. */
  function ParseResponse(r: HttpResponse, display: string, stamp: string): (o: Outcome<Json>)
    ensures !o.Raised?
    ensures o.Ok? <==> IsSuccess(r.code) && r.body.Parsed?
    ensures o.Ok? ==> o.value == r.body.value
    ensures !IsSuccess(r.code) ==> (o.Err? && o.error.code == "API_ERROR"
      && o.error.message == ApiErrorMessage(display, r) && (o.error.retryable <==> r.code >= 500))
    ensures IsSuccess(r.code) && r.body.Unparsable? ==> (o.Err? && o.error.code == "PARSING_ERROR"
      && o.error.message == "Invalid JSON response from API" && !o.error.retryable)
    ensures o.Err? ==> o.error.service == Some(ServiceName)
  {
    if !IsSuccess(r.code) then
      Err(BaseService.BuildError(ServiceName, BaseService.Code(ApiError), ApiErrorMessage(display, r), stamp, retryable := r.code >= 500))
    else
      match r.body
      case Parsed(v) => Ok(v)
      case Unparsable => Err(BaseService.BuildError(ServiceName, BaseService.Code(ParsingError), "Invalid JSON response from API", stamp, retryable := false))
  }

  /** `parse_response` is `validate_http_response` followed by `parse_json_safely`. */
  lemma ParseResponseIsValidateThenParse(r: HttpResponse, display: string, stamp: string)
    ensures ParseResponse(r, display, stamp) ==
      match BaseService.ValidateHttpResponse(ServiceName, display, r, stamp)
      case Some(e) => Err(e)
      case None => BaseService.ParseJsonSafely(ServiceName, r.body, display, stamp)
  {
  }
}
