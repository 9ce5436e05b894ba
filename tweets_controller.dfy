/** app/controllers/v1/tweets_controller.rb: `POST /v1/tweets`. The result of
    `SocialNetwork::CreateTweetService.call` is rendered as JSON with a status chosen
    from its error code. HTTP statuses are their numbers. */
module TweetsController {
  import opened Optional
  import opened Records
  import BaseService

  const Created := 201
  const UnprocessableEntity := 422
  const NotFound := 404
  const BadGateway := 502
  const ServiceUnavailable := 503
  const InternalServerError := 500

  const InternalError := "INTERNAL_ERROR"
  const InternalMessage := "An unexpected error occurred. Please try again later."

  /** The rendered body: the service's success hash, or an `{error: ...}` hash. */
  datatype Body = Success(tweet: TweetCreated) | Failure(error: ErrorEnvelope)

  datatype Rendered = Rendered(status: int, body: Body)

  /** `determine_http_status(error_code)`. */
  function DetermineHttpStatus(code: string): (s: int)
    ensures s == UnprocessableEntity <==> code == "VALIDATION_ERROR"
    ensures s == NotFound <==> code == "GEOCODING_ERROR"
    ensures s == BadGateway <==> code == "SERVICE_ERROR" || code == "API_ERROR"
    ensures s == ServiceUnavailable <==> code == "RATE_LIMIT_ERROR" || code == "CIRCUIT_OPEN_ERROR"
    ensures s == InternalServerError <==>
      code !in {"VALIDATION_ERROR", "GEOCODING_ERROR", "SERVICE_ERROR", "API_ERROR", "RATE_LIMIT_ERROR", "CIRCUIT_OPEN_ERROR"}
  {
    match code
    case "VALIDATION_ERROR" => UnprocessableEntity
    case "GEOCODING_ERROR" => NotFound
    case "SERVICE_ERROR" => BadGateway
    case "API_ERROR" => BadGateway
    case "RATE_LIMIT_ERROR" => ServiceUnavailable
    case "CIRCUIT_OPEN_ERROR" => ServiceUnavailable
    case _ => InternalServerError
  }

  /** `create`: a success is rendered with 201 as it is, an error envelope with the
      status of its code and unchanged, and an exception escaping the service as a
      retryable `INTERNAL_ERROR` with 500. */
  function Create(result: Outcome<TweetCreated>, stamp: string): (r: Rendered)
    ensures r.status == Created <==> result.Ok?
    ensures result.Ok? ==> r.body == Success(result.value)
    ensures result.Err? ==> r.body == Failure(result.error) && r.status == DetermineHttpStatus(result.error.code)
    ensures result.Raised? ==>
      r == Rendered(InternalServerError, Failure(ErrorEnvelope(InternalError, InternalMessage, None, true, stamp)))
  {
    match result
    case Ok(tweet) => Rendered(Created, Success(tweet))
    case Err(e) => Rendered(DetermineHttpStatus(e.code), Failure(e))
    case Raised(_) => Rendered(InternalServerError, Failure(ErrorEnvelope(InternalError, InternalMessage, None, true, stamp)))
  }

  /** The status of every code in `ERROR_CODES`: validation 422, geocoding 404,
      service and API 502, and the other three (current weather, forecast,
      parsing) fall to 500. */
  lemma StatusOfEveryErrorCode()
    ensures DetermineHttpStatus(BaseService.Code(ValidationError)) == 422
    ensures DetermineHttpStatus(BaseService.Code(GeocodingError)) == 404
    ensures DetermineHttpStatus(BaseService.Code(ServiceError)) == 502
    ensures DetermineHttpStatus(BaseService.Code(ApiError)) == 502
    ensures DetermineHttpStatus(BaseService.Code(CurrentWeatherError)) == 500
    ensures DetermineHttpStatus(BaseService.Code(ForecastError)) == 500
    ensures DetermineHttpStatus(BaseService.Code(ParsingError)) == 500
  {
    BaseService.ErrorCodesTable();
  }

  /** No code of `ERROR_CODES` maps to 503: the two codes that do are not in the table. */
  lemma NoTableCodeUnavailable(k: ErrorKey)
    ensures DetermineHttpStatus(BaseService.Code(k)) != ServiceUnavailable
  {
    BaseService.KeyCovered(k);
  }

  /** Every rendered status is one of the six the controller uses. */
  lemma StatusesUsed(result: Outcome<TweetCreated>, stamp: string)
    ensures Create(result, stamp).status in {201, 422, 404, 502, 503, 500}
  {
  }
}
