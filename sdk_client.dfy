/** lib/open_weather_sdk/client.rb: the SDK's `parse_response` and its own
    `build_error`, whose envelope has no `service` field. `make_request` is
    transport and is not modelled. */
module SdkClient {
  import opened Optional
  import opened RubyJson
  import opened Records
  import OpenWeatherClient

  /** `OpenWeatherSdk::Client.build_error`: code, message, retryable (false by
      default) and timestamp, without a service name. */
  function BuildError(code: string, message: string, stamp: string, retryable: bool := false): (e: ErrorEnvelope)
    ensures e.service.None?
  {
    ErrorEnvelope(code, message, None, retryable, stamp)
  }

  /** `parse_response`: as the application client's, with literal codes. */
  function ParseResponse(r: HttpResponse, display: string, stamp: string): (o: Outcome<Json>)
    ensures !o.Raised?
    ensures o.Ok? <==> IsSuccess(r.code) && r.body.Parsed?
    ensures o.Ok? ==> o.value == r.body.value
    ensures !IsSuccess(r.code) ==> (o.Err? && o.error.code == "API_ERROR"
      && o.error.message == ApiErrorMessage(display, r) && (o.error.retryable <==> r.code >= 500))
    ensures IsSuccess(r.code) && r.body.Unparsable? ==> (o.Err? && o.error.code == "PARSING_ERROR"
      && o.error.message == "Invalid JSON response from API" && !o.error.retryable)
    ensures o.Err? ==> o.error.service.None?
  {
    if !IsSuccess(r.code) then
      Err(BuildError("API_ERROR", ApiErrorMessage(display, r), stamp, retryable := r.code >= 500))
    else
      match r.body
      case Parsed(v) => Ok(v)
      case Unparsable => Err(BuildError("PARSING_ERROR", "Invalid JSON response from API", stamp, retryable := false))
  }

  /** The SDK client and the application client differ only in the service field. */
  lemma SameAsAppClientButService(r: HttpResponse, display: string, stamp: string)
    ensures var sdk := ParseResponse(r, display, stamp);
      var app := OpenWeatherClient.ParseResponse(r, display, stamp);
      (sdk.Ok? <==> app.Ok?) && (sdk.Ok? ==> sdk == app)
      && (sdk.Err? ==> app.Err? && sdk.error == app.error.(service := None))
  {
  }
}
