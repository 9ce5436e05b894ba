/** app/services/base_service.rb: the error-code table and the helpers every
    service inherits. `service` is the class name of the service calling them
    (Ruby's `name` on the receiving class). */
module BaseService {
  import opened Optional
  import opened RubyJson
  import opened Records

  /** `ERROR_CODES` (a frozen hash; a Dafny constant cannot change either). */
  const ErrorCodes: map<ErrorKey, string> := map[
    ValidationError := "VALIDATION_ERROR",
    GeocodingError := "GEOCODING_ERROR",
    CurrentWeatherError := "CURRENT_WEATHER_ERROR",
    ForecastError := "FORECAST_ERROR",
    ApiError := "API_ERROR",
    ParsingError := "PARSING_ERROR",
    ServiceError := "SERVICE_ERROR"]

  /** `ERROR_CODES[key]`. */
  function Code(k: ErrorKey): string {
    KeyCovered(k);
    ErrorCodes[k]
  }

  lemma KeyCovered(k: ErrorKey)
    ensures k in ErrorCodes
  {
    match k
    case ValidationError =>
    case GeocodingError =>
    case CurrentWeatherError =>
    case ForecastError =>
    case ApiError =>
    case ParsingError =>
    case ServiceError =>
  }

  /** The table covers every key and has seven entries. */
  lemma ErrorCodesTable()
    ensures forall k: ErrorKey :: k in ErrorCodes
    ensures |ErrorCodes.Keys| == 7
  {
    forall k: ErrorKey { KeyCovered(k); }
    assert ErrorCodes.Keys == {ValidationError, GeocodingError, CurrentWeatherError, ForecastError, ApiError, ParsingError, ServiceError};
  }

  /** No two keys share a code. */
  lemma ErrorCodesDistinct(k1: ErrorKey, k2: ErrorKey)
    requires Code(k1) == Code(k2)
    ensures k1 == k2
  {
  }

  /** `build_error(code, message, retryable: false)` called on the class `service`. */
  function BuildError(service: string, code: string, message: string, stamp: string, retryable: bool := false): ErrorEnvelope {
    ErrorEnvelope(code, message, Some(service), retryable, stamp)
  }

  /** The envelope carries the code and message given, the calling class's name,
      the retryable flag (false unless the caller says otherwise) and the timestamp. */
  lemma BuildErrorShape(service: string, code: string, message: string, stamp: string, retryable: bool)
    ensures BuildError(service, code, message, stamp).retryable == false
    ensures var e := BuildError(service, code, message, stamp, retryable);
      e.code == code && e.message == message && e.service == Some(service)
      && e.retryable == retryable && e.timestamp == stamp
  {
  }

  /** `validate_http_response(response, display)`: nil for a 2xx response, otherwise
      an `API_ERROR` naming the status and reason, retryable for 5xx. */
  function ValidateHttpResponse(service: string, display: string, r: HttpResponse, stamp: string): (e: Option<ErrorEnvelope>)
    ensures e.None? <==> IsSuccess(r.code)
    ensures e.Some? ==> e.value.code == "API_ERROR" && e.value.service == Some(service)
    ensures e.Some? ==> e.value.message == ApiErrorMessage(display, r)
    ensures e.Some? ==> (e.value.retryable <==> r.code >= 500)
  {
    if !IsSuccess(r.code) then
      Some(BuildError(service, Code(ApiError), ApiErrorMessage(display, r), stamp, retryable := r.code >= 500))
    else None
  }

  /** `parse_json_safely(body, display)`: the parsed value, or a non-retryable
      `PARSING_ERROR` when `JSON.parse` fails. */
  function ParseJsonSafely(service: string, body: JsonText, display: string, stamp: string): (r: Outcome<Json>)
    ensures !r.Raised?
    ensures r.Ok? <==> body.Parsed?
    ensures r.Ok? ==> r.value == body.value
    ensures r.Err? ==> (r.error.code == "PARSING_ERROR" && r.error.message == "Invalid JSON response from API"
                        && !r.error.retryable && r.error.service == Some(service))
  {
    match body
    case Parsed(v) => Ok(v)
    case Unparsable => Err(BuildError(service, Code(ParsingError), "Invalid JSON response from API", stamp, retryable := false))
  }
}
