/** The values that flow between the services: the error envelope every service
    returns on failure, the three outcomes of calling a collaborator, the external
    requests a run performs, and the success payloads. */
module Records {
  import opened Optional
  import opened RubyJson
  import Text

  /** The `error:` hash built by `build_error`. `service` is the class name (absent
      in the SDK client's and the controller's envelopes); `timestamp` is the
      `Time.current.iso8601` text, opaque here. */
  datatype ErrorEnvelope = ErrorEnvelope(
    code: string,
    message: string,
    service: Option<string>,
    retryable: bool,
    timestamp: string)

  /** What calling a collaborator gives: its success value, its `{error: ...}` hash,
      or a StandardError it raised (Ruby `raise`). */
  datatype Outcome<+T> = Ok(value: T) | Err(error: ErrorEnvelope) | Raised(message: string)

  /** The keys of `ERROR_CODES`. */
  datatype ErrorKey =
    | ValidationError
    | GeocodingError
    | CurrentWeatherError
    | ForecastError
    | ApiError
    | ParsingError
    | ServiceError

  /** The OpenWeather endpoints, the keys of `BASE_URLS`. */
  datatype Endpoint = GeocodingApi | CurrentWeatherApi | ForecastApi

  datatype ParamValue = PStr(s: string) | PInt(i: int) | PJson(j: Json)

  datatype Param = Param(name: string, value: ParamValue)

  /** `make_request(endpoint, params)`; the API key it appends is not modelled. */
  datatype Request = Request(endpoint: Endpoint, params: seq<Param>)

  /** A `Net::HTTPResponse`: numeric status, reason phrase and the body as
      `JSON.parse` reads it. */
  datatype HttpResponse = HttpResponse(code: int, message: string, body: JsonText)

  /** What the transport gives for one request: a response, or a raised exception. */
  datatype HttpOutcome = Responded(response: HttpResponse) | HttpRaised(message: string)

  /** What `X::Client#post` gives: the parsed JSON reply, or a raised exception. */
  datatype XOutcome = XReplied(reply: Json) | XRaised(message: string)

  /** The externally visible effects of a run, in order. */
  datatype Call = HttpCall(request: Request) | PostCall(text: string)

  /** A result together with the external calls made to produce it. */
  datatype Traced<+T> = Traced(result: T, calls: seq<Call>)

  /** `Net::HTTPSuccess`: the 2xx statuses. */
  predicate IsSuccess(code: int) {
    200 <= code < 300
  }

  /** The text of an `API_ERROR`: `"<name> API error: <code> <reason>"`. */
  function ApiErrorMessage(display: string, r: HttpResponse): string {
    display + " API error: " + Text.IntToString(r.code) + " " + r.message
  }

  /** Geocoding's answer: the first candidate's fields, as parsed. */
  datatype Coordinates = Coordinates(latitude: Json, longitude: Json, city: Json, country: Json)

  /** `parse_weather_response`'s hash. */
  datatype CurrentWeather = CurrentWeather(
    temperature: Json,
    condition: Json,
    humidity: Json,
    city: Json,
    country: Json)

  /** One entry of `calculate_daily_averages`: the `YYYY-MM-DD` key and the average
      in hundredths of a degree Celsius (a Float rounded to two decimals). */
  datatype DailyAverage = DailyAverage(date: string, averageHundredths: int)

  /** `post_tweet`'s success hash (`success: true` is implied). */
  datatype TweetPosted = TweetPosted(tweetId: Json, text: Json)

  /** `CreateTweetService`'s success hash (`success: true` is implied). */
  datatype TweetCreated = TweetCreated(city: string, weatherReport: string, tweetId: Json, tweetText: Json)
}
