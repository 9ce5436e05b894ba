/** lib/open_weather_sdk/services/base_service.rb: the SDK's copy of the error-code
    table and of the inherited helpers. Its `log_info`/`log_error` write to the Rails
    log only and are not modelled. */
module SdkBaseService {
  import opened Optional
  import opened RubyJson
  import opened Records
  import App = BaseService

  /** `OpenWeatherSdk::BaseService::ERROR_CODES`. */
  const ErrorCodes: map<ErrorKey, string> := map[
    ValidationError := "VALIDATION_ERROR",
    GeocodingError := "GEOCODING_ERROR",
    CurrentWeatherError := "CURRENT_WEATHER_ERROR",
    ForecastError := "FORECAST_ERROR",
    ApiError := "API_ERROR",
    ParsingError := "PARSING_ERROR",
    ServiceError := "SERVICE_ERROR"]

  /** The SDK table is the application's table, so it has the same seven distinct codes. */
  lemma SameErrorCodes()
    ensures ErrorCodes == App.ErrorCodes
  {
  }

  function BuildError(service: string, code: string, message: string, stamp: string, retryable: bool := false): ErrorEnvelope {
    ErrorEnvelope(code, message, Some(service), retryable, stamp)
  }

  /** Same shape as the application's `build_error`, retryable false by default. */
  lemma BuildErrorShape(service: string, code: string, message: string, stamp: string, retryable: bool)
    ensures BuildError(service, code, message, stamp).retryable == false
    ensures BuildError(service, code, message, stamp, retryable) == App.BuildError(service, code, message, stamp, retryable)
  {
  }

  /** `validate_http_response`: nil on 2xx, otherwise an `API_ERROR` retryable for 5xx. */
  function ValidateHttpResponse(service: string, display: string, r: HttpResponse, stamp: string): (e: Option<ErrorEnvelope>)
    ensures e.None? <==> IsSuccess(r.code)
    ensures e.Some? ==> e.value.code == "API_ERROR" && e.value.service == Some(service)
    ensures e.Some? ==> e.value.message == ApiErrorMessage(display, r)
    ensures e.Some? ==> (e.value.retryable <==> r.code >= 500)
  {
    if !IsSuccess(r.code) then
      Some(BuildError(service, ErrorCodes[ApiError], ApiErrorMessage(display, r), stamp, retryable := r.code >= 500))
    else None
  }

  /** `parse_json_safely`: the parsed value, or a non-retryable `PARSING_ERROR`. */
  function ParseJsonSafely(service: string, body: JsonText, display: string, stamp: string): (r: Outcome<Json>)
    ensures !r.Raised?
    ensures r.Ok? <==> body.Parsed?
    ensures r.Ok? ==> r.value == body.value
    ensures r.Err? ==> (r.error.code == "PARSING_ERROR" && r.error.message == "Invalid JSON response from API"
                        && !r.error.retryable && r.error.service == Some(service))
  {
    match body
    case Parsed(v) => Ok(v)
    case Unparsable => Err(BuildError(service, ErrorCodes[ParsingError], "Invalid JSON response from API", stamp))
  }

  /** The SDK helpers answer exactly as the application's do. */
  lemma AgreesWithApp(service: string, display: string, r: HttpResponse, body: JsonText, stamp: string)
    ensures ValidateHttpResponse(service, display, r, stamp) == App.ValidateHttpResponse(service, display, r, stamp)
    ensures ParseJsonSafely(service, body, display, stamp) == App.ParseJsonSafely(service, body, display, stamp)
  {
  }
}
