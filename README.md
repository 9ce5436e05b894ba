# Weather tweet pipeline — a Dafny model

This project models the request pipeline of the caiena-weatherx Rails application. A
`POST /v1/tweets` carrying a city name is handled as follows:

1. The city is geocoded through OpenWeatherMap.
2. The current weather and the 5-day forecast are fetched. Each of the two services
   geocodes the city on its own.
3. The forecast's 3-hourly samples are averaged per day (`ForecastCalculator`).
4. A Portuguese report is rendered from the current weather and the daily averages.
5. The report is posted to X.
6. The outcome is rendered as JSON with an HTTP status.

Every layer catches failures and rewrites them into the application's error hash:

- an error code from `ERROR_CODES`;
- a message;
- the name of the service class;
- a retryable flag;
- a timestamp.

The layers are geocoding, then current weather and forecast, then the report builder,
then the tweet service, then the controller's status mapping. The model states what
each layer's rewriting does: which code results, where the message comes from, how
the retryable flag is decided, and which external calls are made in which order.

How Ruby is represented:

- **Services are functions.** A service takes its collaborators' results as values of
  type `Traced<Outcome<T>>`. An `Outcome` is `Ok(value)`, `Err(envelope)` for a
  returned error hash, or `Raised(message)` for an exception that escapes the
  collaborator. The trace is the sequence of external calls made.
- **External answers are oracles.** The HTTP transport is a function from a request
  to a response or an exception, and so is X's `post`. The clock is given as
  `now` in milliseconds and as today's calendar date. `Time.current.iso8601` is an
  opaque string.
- **Parsed JSON is a datatype** (`RubyJson.Json`). Its indexing operations behave
  like Ruby's `[]`, `first`, `empty?`, `sum` and `round`, with ActiveSupport loaded
  (so a string's `first` is its first character). On the values a JSON body can
  hold they return what Ruby returns and raise where Ruby raises (`NoMethodError`
  on nil, `TypeError`), so the `rescue StandardError` branches are reached where
  Ruby reaches them; only the wording of the messages may differ (see "Left out").
- **Numbers are exact.** A JSON number is an integer or an exact decimal. Averages
  are kept in hundredths of a degree.
- **The cache is a class.** `Rails.cache` is `CacheStore.Store`, which holds a map
  from key to (value, expiry), and every operation takes an explicit `now`. The
  services read a snapshot of that map through `RecordAt` and `FreshAt`, which the
  class's methods are proved to agree with.
- **The whole request is `Pipeline`.** It wires the real services together as the
  Ruby classes call each other, and states end-to-end facts about one request.

The source's services for geocoding and current weather are shown at the top level
(`FetchGeocodingService`, `FetchCurrentWeatherService`), while their callers name
`Location::` and `Weather::` classes. The model uses the shown classes. Likewise the
application services call a bare `ResponseBuilder`, and the model uses the one in
lib/open_weather_sdk/response_builder.rb.

That class refers to `ERROR_CODES` and `build_error`, which it does not define. So
each of its error paths raises `NameError` instead of returning an error hash:

- an empty geocoding array;
- a body that is not JSON.

The calling service's `rescue` then turns that exception into a `SERVICE_ERROR`. The
model reproduces this.

## Model

| member | source | states |
|---|---|---|
| BaseService.KeyCovered | app/services/base_service.rb:2-10 | every error key has a code in `ERROR_CODES` |
| BaseService.ErrorCodesTable | app/services/base_service.rb:2-10 | the table has exactly seven keys, all of them the model's error keys |
| BaseService.ErrorCodesDistinct | app/services/base_service.rb:2-10 | two keys with the same code are the same key, so the seven codes are distinct |
| BaseService.BuildErrorShape | app/services/base_service.rb:14-24 | the envelope carries the given code and message, the calling class's name, the timestamp and the retryable flag, which is false when the caller does not pass one |
| BaseService.ValidateHttpResponse | app/services/base_service.rb:30-40 | nil iff the status is 2xx; otherwise `API_ERROR` with "<name> API error: <code> <message>", retryable iff the status is at least 500 |
| BaseService.ParseJsonSafely | app/services/base_service.rb:42-47 | a parsed body is returned unchanged; an unparsable one gives a non-retryable `PARSING_ERROR` "Invalid JSON response from API"; it never raises |
| OpenWeatherClient.BaseUrlsTable | app/lib/clients/open_weather_client.rb:3-7 | the table covers exactly the three endpoints, each with its own URL |
| OpenWeatherClient.ParseResponse | app/lib/clients/open_weather_client.rb:20-34 | non-2xx gives `API_ERROR`, retryable iff the status is at least 500; 2xx with JSON gives the parsed body; 2xx with a body that is not JSON gives a non-retryable `PARSING_ERROR`; the result is Ok iff the status is 2xx and the body parses |
| OpenWeatherClient.ParseResponseIsValidateThenParse | app/lib/clients/open_weather_client.rb:20-34 | `parse_response` equals `validate_http_response` followed by `parse_json_safely` |
| SdkBaseService.SameErrorCodes | lib/open_weather_sdk/services/base_service.rb:3-11 | the SDK's `ERROR_CODES` is the application's table |
| SdkBaseService.BuildErrorShape | lib/open_weather_sdk/services/base_service.rb:15-25 | the SDK's `build_error` has retryable false by default and builds the application's envelope |
| SdkBaseService.ValidateHttpResponse | lib/open_weather_sdk/services/base_service.rb:31-41 | nil iff the status is 2xx; otherwise `API_ERROR` with the status line, retryable iff the status is at least 500 |
| SdkBaseService.ParseJsonSafely | lib/open_weather_sdk/services/base_service.rb:43-48 | the parsed body, or a non-retryable `PARSING_ERROR` "Invalid JSON response from API" |
| SdkBaseService.AgreesWithApp | lib/open_weather_sdk/services/base_service.rb:31-48 | both SDK helpers give exactly the application helpers' answers on every input |
| SdkClient.BuildError | lib/open_weather_sdk/client.rb:38-47 | the SDK client's envelope has no service field |
| SdkClient.ParseResponse | lib/open_weather_sdk/client.rb:20-34 | the same classification as the application client (`API_ERROR` retryable iff the status is at least 500, non-retryable `PARSING_ERROR`, else the parsed body), with no service field in the envelope |
| SdkClient.SameAsAppClientButService | lib/open_weather_sdk/client.rb:20-47 | the SDK client and the application client agree on every response except that the SDK's envelope has no service name |
| ResponseBuilder.ParseGeocodingResponse | lib/open_weather_sdk/response_builder.rb:8-22 | coordinates are returned iff the body is a non-empty array whose first entry a string index accepts, or a non-empty string; for a first entry that is a hash they are its `lat`, `lon`, `name` and `country`; for a string body (whose `first` is one character) they are four nils; an empty array or a body that is not JSON raises `NameError` on `ERROR_CODES` |
| ResponseBuilder.GeocodingUsesFirstCandidate | lib/open_weather_sdk/response_builder.rb:12-18 | with several candidates only the first one gives the coordinates |
| ResponseBuilder.ParseWeatherResponse | lib/open_weather_sdk/response_builder.rb:24-36 | for a well-formed body: temperature is main.temp, condition is weather[0].description, humidity is main.humidity, city is name and country is sys.country; a body that is not JSON raises `NameError`; a success implies the body parsed to a hash or a string |
| ResponseBuilder.StringWeatherHasNilCondition | lib/open_weather_sdk/response_builder.rb:26-32 | a string `weather` field does not raise: the condition is nil and the other fields are read as for a well-formed body |
| ResponseBuilder.ParseForecastResponse | lib/open_weather_sdk/response_builder.rb:38-44 | the parsed body unchanged iff it parses, otherwise `NameError` |
| FetchGeocodingService.Call | app/services/fetch_geocoding_service.rb:2-15 | a blank or nil city gives `VALIDATION_ERROR` "City is required" with no request; otherwise exactly one request with q = city and limit = 1 is made; non-2xx gives `API_ERROR` retryable iff the status is at least 500; 2xx gives coordinates iff the builder finds a candidate (a non-empty array whose first entry is a hash or a string, or a non-empty string), and then they are the builder's coordinates; an empty result and every exception give the fixed retryable `SERVICE_ERROR` "Unable to find coordinates for the specified city"; it never raises |
| FetchGeocodingService.FoundIsFirstCandidate | app/services/fetch_geocoding_service.rb:11 | a 2xx array of candidates gives the first one's `lat`, `lon`, `name` and `country` |
| FetchGeocodingService.UnknownCityIsServiceError | app/services/fetch_geocoding_service.rb:12-15 | an empty 2xx array is a retryable `SERVICE_ERROR` with the fixed message |
| FetchGeocodingService.OnlyTheAnswerMatters | app/services/fetch_geocoding_service.rb:12-15 | the result depends only on the answer to the geocoding request, and not on the exception's text, which is dropped |
| FetchCurrentWeatherService.Call | app/services/fetch_current_weather_service.rb:2-24 | a blank city gives `VALIDATION_ERROR` with no call; a geocoding error gives a non-retryable `GEOCODING_ERROR` with the same message and no weather request; otherwise one request with the geocoded lat/lon and units=metric follows; non-2xx gives `API_ERROR` retryable iff the status is at least 500; a 2xx body gives the builder's weather when the builder reads it, the extracted fields for a well-formed body; a 2xx body the builder raises on gives the retryable `SERVICE_ERROR` "Unable to fetch weather data: <the builder's message>", the `ERROR_CODES` `NameError` for a body that is not JSON; every other exception gives a retryable `SERVICE_ERROR` "Unable to fetch weather data: <message>"; it never raises |
| FetchCurrentWeatherService.UnknownCityIsGeocodingError | app/services/fetch_current_weather_service.rb:7-10 | with the real geocoder, an unknown city stops after the one geocoding request with a non-retryable `GEOCODING_ERROR` carrying the geocoder's message |
| FetchCurrentWeatherService.GeocodingRetryableDropped | app/services/fetch_current_weather_service.rb:8-10 | the inner error's code and retryable flag do not matter; only its message is kept, and the result is not retryable |
| FetchWeatherForecastService.CachedForecast | app/services/weather/fetch_weather_forecast_service.rb:8-11 | a cached forecast is used iff the forecast field is fresh and the record holds a truthy forecast, and then it is that forecast |
| FetchWeatherForecastService.ReadCachedForecast | app/services/weather/fetch_weather_forecast_service.rb:8-11 | the live store's `is_fresh?` followed by `get` gives exactly `CachedForecast` of the store's contents |
| FetchWeatherForecastService.Call | app/services/weather/fetch_weather_forecast_service.rb:3-30 | a blank city gives `VALIDATION_ERROR`; a cached forecast is returned with no geocoding and no request; a geocoding error gives a non-retryable `GEOCODING_ERROR` with the same message; otherwise one request with the geocoded lat/lon and no units follows; non-2xx gives `API_ERROR` retryable iff the status is at least 500; a 2xx body is returned unchanged; every exception gives a retryable `SERVICE_ERROR` "Unable to fetch weather forecast: <message>"; it never raises |
| FetchWeatherForecastService.CachedForecastServed | app/services/weather/fetch_weather_forecast_service.rb:8-11 | a forecast set at time t is served, under any spelling of the city that downcases the same, until t + 2h, with no external call |
| FetchWeatherForecastService.StaleForecastRefetched | app/services/weather/fetch_weather_forecast_service.rb:8-17 | at exactly t + 2h the cached forecast is stale and the geocoding path is taken |
| CacheStore.Ttl | app/lib/cache_store.rb:3-8 | every field's lifetime is positive |
| CacheStore.TtlTable | app/lib/cache_store.rb:3-8 | coordinates 24h, current weather 30min, forecast 2h and tweet 2h, in milliseconds |
| CacheStore.CacheKey | app/lib/cache_store.rb:44-46 | the key is "weather:" followed by the downcased city |
| CacheStore.CacheKeyCaseInsensitive | app/lib/cache_store.rb:44-46 | two cities share a key iff they downcase the same |
| CacheStore.CacheKeyNotRateKey | app/lib/cache_store.rb:44-46 | no city's key is the rate-limit counter's key |
| CacheStore.Read | app/lib/cache_store.rb:13-15 | an entry is read iff it is present and not expired, and then it is the stored value |
| CacheStore.RecordAt | app/lib/cache_store.rb:13-15 | `get(city)` is the record stored under the city's key while it is unexpired |
| CacheStore.RateCount | app/lib/cache_store.rb:32 | the counter reads as 0 when absent or expired, and as the stored count otherwise |
| CacheStore.RateStepSpec | app/lib/cache_store.rb:30-40 | a call is allowed iff the count is below 60; a refused call leaves the store unchanged; an allowed one writes count + 1 with a fresh one-minute expiry; no other key changes |
| CacheStore.RateStepBounded | app/lib/cache_store.rb:30-40 | the stored count never exceeds 60 |
| CacheStore.RateWindowSlides | app/lib/cache_store.rb:38 | within a minute of an allowed call the counter reads one more than before it |
| CacheStore.RateWindowExpires | app/lib/cache_store.rb:32-38 | once the counter has expired the next call is allowed and the count restarts at 1 |
| CacheStore.RunLimiter | app/lib/cache_store.rb:30-40 | a run of calls gives one answer per call and keeps the store well formed |
| CacheStore.RunWithinWindow | app/lib/cache_store.rb:30-40 | calls within one minute of a window starting at count c are allowed exactly while c + i < 60 |
| CacheStore.SixtyFirstCallRefused | app/lib/cache_store.rb:30-40 | from an expired counter, of the calls made within one minute exactly the first 60 are allowed |
| CacheStore.SetAt | app/lib/cache_store.rb:17-19 | `set` replaces the whole record under the city's key, with a 24h expiry, and changes no other key |
| CacheStore.SetThenGet | app/lib/cache_store.rb:13-19 | within 24h, `get` under any spelling of the city that downcases the same returns exactly what was set; other cities and the counter are unaffected |
| CacheStore.NotFreshWithoutTime | app/lib/cache_store.rb:21-23 | a missing record or a missing `cached_at[field]` is never fresh |
| CacheStore.FreshnessBoundary | app/lib/cache_store.rb:25-27 | a field is fresh one millisecond before `cached_at + TTL` and stale at exactly that time |
| CacheStore.FreshnessIgnoresOtherFields | app/lib/cache_store.rb:21-28 | replacing the other fields' timestamps does not change a field's freshness |
| CacheStore.Store.constructor | app/lib/cache_store.rb:2-11 | an empty store |
| CacheStore.Store.Get | app/lib/cache_store.rb:13-15 | the result is `RecordAt` of the current contents |
| CacheStore.Store.Set | app/lib/cache_store.rb:17-19 | the new contents are `SetAt` of the old ones |
| CacheStore.Store.IsFresh | app/lib/cache_store.rb:21-28 | the result is `FreshAt` of the current contents |
| CacheStore.Store.CheckApiRateLimit | app/lib/cache_store.rb:30-40 | the answer and the new contents are `RateStep` of the old contents, so the limiter's lemmas hold of the store |
| ForecastCalculator.Distinct | app/models/forecast_calculator.rb:21-25 | the keys without repeats, with the same members |
| ForecastCalculator.DistinctFirstOccurrence | app/models/forecast_calculator.rb:21-25 | the distinct keys appear in the order of their first occurrence in the input |
| ForecastCalculator.Select | app/models/forecast_calculator.rb:21-25 | a key's group is non-empty iff the key occurs |
| ForecastCalculator.GroupBy | app/models/forecast_calculator.rb:21-25 | `group_by` has one group per distinct key, in order of first occurrence, and each group holds exactly the samples with that key, in input order |
| ForecastCalculator.GroupsNonEmpty | app/models/forecast_calculator.rb:21-25 | every group is non-empty and the group keys are the distinct keys |
| ForecastCalculator.GroupSizesSum | app/models/forecast_calculator.rb:21-25 | the group sizes sum to the number of samples, so each sample lands in exactly one group |
| ForecastCalculator.DateKey | app/models/forecast_calculator.rb:22-24 | a sample's key is the first ten characters of a `dt_txt` that parses, and the key itself parses as a date |
| ForecastCalculator.DateKeys | app/models/forecast_calculator.rb:21-25 | all the keys are read iff each sample's key is read, one key per sample |
| ForecastCalculator.ForecastItems | app/models/forecast_calculator.rb:22 | `group_by` enumerates an array's elements and a hash's pairs, and raises on anything else |
| ForecastCalculator.FutureIsAfterToday | app/models/forecast_calculator.rb:6-8 | "on or after tomorrow" is "strictly after today" |
| ForecastCalculator.FutureDates | app/models/forecast_calculator.rb:7-9 | exactly the keys dated from tomorrow on are kept |
| ForecastCalculator.FutureDatesDistinct | app/models/forecast_calculator.rb:7-9 | filtering distinct keys keeps them distinct |
| ForecastCalculator.FutureGroups | app/models/forecast_calculator.rb:7-9 | the kept groups are groups of the input whose keys are the future dates, in the same order |
| ForecastCalculator.Temperatures | app/models/forecast_calculator.rb:28 | one temperature per sample iff every sample's `main.temp` reads |
| ForecastCalculator.AverageHundredths | app/models/forecast_calculator.rb:29-30 | defined iff every temperature is a number; with integer temperatures it is 100 × (sum div count) − 27315 hundredths, the division flooring; with any decimal temperature it is the integer nearest to 100 × (exact total / count) − 27315, halves away from zero |
| ForecastCalculator.SumOfIntegers | app/models/forecast_calculator.rb:29 | the sum of integer temperatures is the integer total |
| ForecastCalculator.MeanShift | app/models/forecast_calculator.rb:29-30 | the single fraction the average is rounded from equals the exact mean less 273.15, in hundredths |
| RubyJson.SumIsExactTotal | app/models/forecast_calculator.rb:29 | `temperatures.sum`, Integer or Float, stands for the exact total of the temperatures, term by term |
| RubyJson.AddTermExact | app/models/forecast_calculator.rb:29 | each step of `sum` adds the term's exact value to the running total |
| RubyJson.RoundHalfAwayNearest | app/models/forecast_calculator.rb:30 | `round` gives the integer nearest to the fraction, halves away from zero |
| ForecastCalculator.GroupAverage | app/models/forecast_calculator.rb:27-31 | a group's average is defined iff its temperatures read and are numbers |
| ForecastCalculator.Averages | app/models/forecast_calculator.rb:11-16 | one average per group, carrying the group's date and the group's average |
| ForecastCalculator.DayGroupKeys | app/models/forecast_calculator.rb:3-9 | the kept groups' keys are the distinct dates after today, in order of first appearance |
| ForecastCalculator.DayGroupsFacts | app/models/forecast_calculator.rb:3-9 | every kept group is non-empty and holds exactly the samples of its date |
| ForecastCalculator.FutureGroupsSelect | app/models/forecast_calculator.rb:7-9 | filtering keeps each group's non-emptiness and its contents |
| ForecastCalculator.ReportedDatesFacts | app/models/forecast_calculator.rb:3-9 | the reported dates are after today and distinct |
| ForecastCalculator.AveragedDates | app/models/forecast_calculator.rb:3-16 | the averaged days are after today and their dates are distinct |
| ForecastCalculator.AveragesCarryKeys | app/models/forecast_calculator.rb:11-15 | the averages carry the group keys in order |
| ForecastCalculator.DayGroupsNonEmpty | app/models/forecast_calculator.rb:22-29 | no group passed to the averaging step is empty, so the division is never by zero |
| ForecastCalculator.FirstFive | app/models/forecast_calculator.rb:16 | `first(5)` keeps a prefix of min(5, n) entries |
| ForecastCalculator.AverageDays | app/models/forecast_calculator.rb:3-17 | at most five days, all after today, with distinct dates |
| ForecastCalculator.DailyAverages | app/models/forecast_calculator.rb:3-17 | at most five days, all after today, with distinct dates; a list that is neither an array nor a hash raises `NoMethodError` on `group_by` |
| ForecastCalculator.GroupsAverage | app/models/forecast_calculator.rb:11-16 | when every sample's temperature is a number, every kept group has an average |
| ForecastCalculator.DailyAveragesSpec | app/models/forecast_calculator.rb:3-31 | for well-formed samples the result is defined and has min(5, number of distinct future dates) entries; entry i is the i-th future date in order of first appearance, with the average of exactly the samples of that date |
| ForecastCalculator.AverageDaysKeepsFive | app/models/forecast_calculator.rb:16 | the result is the first min(5, n) averages |
| ForecastCalculator.AveragedGroups | app/models/forecast_calculator.rb:11-16 | the first five averages of the kept groups meet the per-date specification |
| ForecastCalculator.SelectedSamplesRead | app/models/forecast_calculator.rb:27-31 | the group of a present date has an average when every sample reads |
| ForecastCalculator.SelectMembers | app/models/forecast_calculator.rb:21-25 | a group holds only samples carrying its key |
| ForecastCalculator.NoFutureDates | app/models/forecast_calculator.rb:7-9 | with no future keys nothing is kept |
| ForecastCalculator.NoReportedDates | app/models/forecast_calculator.rb:7-9 | with no date after today no date is reported |
| ForecastCalculator.AllPastGivesEmpty | app/models/forecast_calculator.rb:6-16 | samples dated today or earlier give an empty list |
| ForecastCalculator.AverageExamples | app/models/forecast_calculator.rb:27-31 | {300, 310, 290} gives 26.85, {290, 295} gives 18.85 by flooring division, and the decimal pair {300.123, 300.456} gives 27.14 |
| ForecastCalculator.SampleKey | app/models/forecast_calculator.rb:23 | a `dt_txt` made of a date and a time has that date as its key |
| ForecastCalculator.TodayAndTomorrow | app/models/forecast_calculator.rb:6-8 | today's key is not kept and tomorrow's is |
| ForecastCalculator.TwoDays | app/models/forecast_calculator.rb:3-31 | two samples of today and two of tomorrow give only tomorrow, with the average of its own two samples |
| ForecastCalculator.OneReportedDate | app/models/forecast_calculator.rb:11-16 | one reported date gives exactly one average |
| ForecastCalculator.TwoDaysReported | app/models/forecast_calculator.rb:6-9 | of the keys [today, today, tomorrow, tomorrow] only tomorrow is reported |
| ForecastCalculator.TwoDaysSelect | app/models/forecast_calculator.rb:21-25 | tomorrow's group is the last two samples |
| ForecastCalculator.SecondDayAverage | app/models/forecast_calculator.rb:27-31 | 290 K and 295 K average to 18.85 °C |
| Dates.Succ | app/models/forecast_calculator.rb:6 | `Date.current + 1.day` is a valid date after today |
| Dates.OnOrAfterTomorrow | app/models/forecast_calculator.rb:8 | on or after tomorrow iff after today |
| Dates.ParseYmd | app/models/forecast_calculator.rb:23 | `Date.parse` of an ISO date gives a valid four-digit-year date |
| Dates.ParseFormat | app/models/forecast_calculator.rb:23 | formatting with `%Y-%m-%d` and then parsing gives the date back |
| Dates.FormatParse | app/models/forecast_calculator.rb:23 | parsing and then formatting gives the first ten characters back |
| Dates.FormatDayMonth | app/services/weather/build_weather_report_service.rb:32 | `strftime('%d/%m')` is five characters with a slash in the middle |
| BuildWeatherReportService.DayText | app/services/weather/build_weather_report_service.rb:34-37 | an item renders iff its date parses |
| BuildWeatherReportService.DayTexts | app/services/weather/build_weather_report_service.rb:34-38 | one item per daily average, in input order, iff every date parses |
| BuildWeatherReportService.BuildReport | app/services/weather/build_weather_report_service.rb:28-41 | a report is produced iff the temperature is a number and every date parses; a temperature that is not a number raises `NoMethodError` on `round`; the report is the opening, the items joined by ", ", and a final "." |
| BuildWeatherReportService.Render | app/services/weather/build_weather_report_service.rb:15-20 | after both fetches succeed: a forecast that is not a hash raises; otherwise the daily averages of its `list` are reported, and their exception propagates |
| BuildWeatherReportService.Call | app/services/weather/build_weather_report_service.rb:4-24 | a blank city gives `VALIDATION_ERROR` with no call; a current-weather error gives a non-retryable `CURRENT_WEATHER_ERROR` with the same message and no forecast call; a forecast error gives a non-retryable `FORECAST_ERROR` with the same message; every exception gives a retryable `SERVICE_ERROR` "Unable to build weather report: <message>"; success is the rendered report; the calls are the current-weather calls then the forecast calls; it never raises |
| Text.JoinAppend | app/services/weather/build_weather_report_service.rb:34-38 | joining one more day text appends ", " and that text |
| Text.NatToString | app/services/weather/build_weather_report_service.rb:37 | the digits written denote the number, with no leading zero |
| Text.IntToString | app/services/weather/build_weather_report_service.rb:37-40 | a minus sign exactly for a negative number, then digits without a leading zero that denote its magnitude |
| Text.IntToStringInjective | app/services/weather/build_weather_report_service.rb:37-40 | distinct temperatures print differently |
| BuildWeatherReportService.ReportNotBlank | app/services/weather/build_weather_report_service.rb:40 | a report is never blank |
| BuildWeatherReportService.CallReportNotBlank | app/services/weather/build_weather_report_service.rb:19-20 | a successful call gives a report that is not blank |
| BuildWeatherReportService.NoDaysEnding | app/services/weather/build_weather_report_service.rb:38-40 | with no daily averages the report ends "dias: ." |
| BuildWeatherReportService.CalculatedDaysRender | app/services/weather/build_weather_report_service.rb:19-20 | averages computed by the calculator always have dates that parse, so the report renders iff the temperature is a number |
| BuildWeatherReportService.CurrentFailureStops | app/services/weather/build_weather_report_service.rb:9-12 | when the current weather is not Ok the forecast plays no part and only the current-weather calls are made |
| BuildWeatherReportService.ReportOpensWithCurrent | app/services/weather/build_weather_report_service.rb:19-20 | a successful report begins with the current temperature, condition, city and today's date |
| BuildWeatherReportService.ReportOpening | app/services/weather/build_weather_report_service.rb:40 | every report begins with its opening |
| BuildWeatherReportService.LondonOpening | app/services/weather/build_weather_report_service.rb:29-32 | 15.5 °C of clear sky in London on 1 January opens "16°C e clear sky em London em 01/01" |
| BuildWeatherReportService.RoundingExamples | app/services/weather/build_weather_report_service.rb:29-35 | 15.7 and 15.5 round to 16, 18.30 to 18, 20.10 to 20, 18.85 to 19 and −0.5 to −1 |
| BuildWeatherReportService.ParisReport | app/services/weather/build_weather_report_service.rb:28-40 | the full Paris report text for two daily averages |
| BuildWeatherReportService.ParisDays | app/services/weather/build_weather_report_service.rb:34-38 | the two Paris items |
| BuildWeatherReportService.ParisSecond | app/services/weather/build_weather_report_service.rb:35-37 | 18.30 on 2024-01-02 renders "18°C em 02/01" |
| BuildWeatherReportService.ParisThird | app/services/weather/build_weather_report_service.rb:35-37 | 20.10 on 2024-01-03 renders "20°C em 03/01" |
| BuildWeatherReportService.ParisOpening | app/services/weather/build_weather_report_service.rb:29-32 | the Paris opening text |
| TwitterClient.ReadReply | app/lib/clients/twitter_client.rb:13-17 | a reply with a `data` hash gives its `id` and `text`; a reply that is neither a hash nor a string raises |
| TwitterClient.PostTweet | app/lib/clients/twitter_client.rb:4-21 | a blank or nil text gives `VALIDATION_ERROR` "Tweet text is required" with no post; otherwise exactly one post of that text is made; a reply with `data` gives its id and text; a client exception, or a reply whose `data` is nil, gives a retryable `SERVICE_ERROR` "Unable to post tweet: <message>"; it never raises |
| TwitterClient.PostFailuresRetryable | app/lib/clients/twitter_client.rb:18-21 | every failure of a posted text is a retryable `SERVICE_ERROR` |
| TwitterClient.EchoedText | app/lib/clients/twitter_client.rb:13-17 | X echoing the text back gives that text and the new id |
| CreateTweetService.CachedTweet | app/services/social_network/create_tweet_service.rb:8-11 | a cached tweet is used iff the tweet field is fresh and the record holds a tweet, and then it is that tweet |
| CreateTweetService.ReadCachedTweet | app/services/social_network/create_tweet_service.rb:8-11 | the live store's `is_fresh?` followed by `get` gives exactly `CachedTweet` of the store's contents, and the store is not written |
| CreateTweetService.Call | app/services/social_network/create_tweet_service.rb:3-34 | a blank city gives `VALIDATION_ERROR` with no call; a fresh cached tweet is returned as it is with no call; a report error gives a non-retryable `SERVICE_ERROR` with its message and nothing is posted; a post error gives a retryable `SERVICE_ERROR` with its message; every exception gives a retryable `SERVICE_ERROR` "Unable to create weather tweet: <message>"; success is the city as given, the report, and the post's id and text; the calls are the report's calls then the post's; it never raises and only ever reports `VALIDATION_ERROR` or `SERVICE_ERROR` |
| CreateTweetService.ReportFailureSkipsPost | app/services/social_network/create_tweet_service.rb:13-16 | when the report fails the poster plays no part |
| CreateTweetService.CachedTweetShortCircuits | app/services/social_network/create_tweet_service.rb:8-11 | a fresh cached tweet decides the result whatever the report and the poster would give, and no call is made |
| CreateTweetService.FreshFlagWithoutTweet | app/services/social_network/create_tweet_service.rb:8-11 | a fresh tweet timestamp without a stored tweet falls through to the live path |
| CreateTweetService.PostErrorExample | app/services/social_network/create_tweet_service.rb:18-21 | a poster's "Twitter API error" becomes a retryable `SERVICE_ERROR` with that message |
| TweetsController.DetermineHttpStatus | app/controllers/v1/tweets_controller.rb:46-59 | 422 iff `VALIDATION_ERROR`; 404 iff `GEOCODING_ERROR`; 502 iff `SERVICE_ERROR` or `API_ERROR`; 503 iff `RATE_LIMIT_ERROR` or `CIRCUIT_OPEN_ERROR`; 500 iff any other code |
| TweetsController.Create | app/controllers/v1/tweets_controller.rb:4-44 | 201 iff the service succeeded, and then the result is rendered as it is; an error hash is rendered unchanged with its code's status; an escaping exception gives 500 with a retryable `INTERNAL_ERROR` and the fixed message |
| TweetsController.StatusOfEveryErrorCode | app/controllers/v1/tweets_controller.rb:46-59 | the statuses of the seven table codes: 422, 404, 502, 502, and 500 for current weather, forecast and parsing errors |
| TweetsController.NoTableCodeUnavailable | app/controllers/v1/tweets_controller.rb:54-55 | no code of `ERROR_CODES` maps to 503 |
| TweetsController.StatusesUsed | app/controllers/v1/tweets_controller.rb:4-59 | every rendered status is one of 201, 422, 404, 502, 503 and 500 |
| Pipeline.Handle | app/controllers/v1/tweets_controller.rb:4-13 | one request is the controller's rendering of the tweet service's result, with the tweet service's calls |
| Pipeline.ReportMakesNoPost | app/services/weather/build_weather_report_service.rb:4-24 | nothing before the tweet service posts anything |
| Pipeline.StagesMakeNoPost | app/services/weather/build_weather_report_service.rb:9-14 | the current-weather and forecast stages make only HTTP requests |
| Pipeline.Statuses | app/controllers/v1/tweets_controller.rb:9-13 | with the real services the answer is always 201, 422 or 502: no exception reaches the controller |
| Pipeline.AtMostOnePostLast | app/services/social_network/create_tweet_service.rb:13-21 | at most one tweet is posted per request, only as the last external call, and its text is the report just built |
| Pipeline.BlankCity | app/services/social_network/create_tweet_service.rb:4 | a blank or missing city is answered 422 with `VALIDATION_ERROR` and no external call |
| Pipeline.CachedTweetAnswered | app/services/social_network/create_tweet_service.rb:8-11 | a fresh cached tweet is answered 201 with that tweet and no external call |
| Pipeline.UnknownCity | app/services/fetch_geocoding_service.rb:11-15 | an unknown city is answered 502 with a non-retryable `SERVICE_ERROR` carrying the geocoder's message, after exactly one geocoding request |
| OpenWeatherClient.MakeRequestAsWritten | app/lib/clients/open_weather_client.rb:9-11 | as written, every request raises `NoMethodError` on the undefined `check_api_rate_limit` |
| Pipeline.AsWrittenLiveRequestFails | app/lib/clients/open_weather_client.rb:9-11 | with `make_request` as written, every non-blank uncached request is answered 502 with the geocoder's fixed message after one attempted geocoding request, whatever the provider would answer |
| Pipeline.LiveSuccessCalls | app/services/social_network/create_tweet_service.rb:13-30 | a live success with no cached forecast makes exactly five calls: geocoding, the weather request, geocoding again, the forecast request, then the post of the report; the body carries the city and the report |

## Left out

- HTTP transport (`make_request` in app/lib/clients/open_weather_client.rb:9-18 and lib/open_weather_sdk/client.rb:12-18): URI encoding, the API key and `Net::HTTP`. Each request is a value, and its answer comes from the `http` oracle.
- The HTTP oracle is deterministic within one request, so the two geocodings of a city see the same answer.
- The rate-limiter wiring at app/lib/clients/open_weather_client.rb:10-11 is not part of the services' transport. It calls `BaseService.check_api_rate_limit`, which `BaseService` does not define; what that does to every request is under "Findings" (`Pipeline.AsWrittenLiveRequestFails`). The services are modelled with a transport that reaches the provider, as the client's own tests expect, and only the limiter of app/lib/cache_store.rb:30-40 is modelled.
- X client construction (app/lib/clients/twitter_client.rb:25-32) and the network call: `post` is the oracle `x`.
- Logging (`Rails.logger`, and the SDK's `log_info` and `log_error`) is left out, because it never affects a result.
- Timestamps (`Time.current.iso8601`) are an opaque string passed in.
- Concurrency is left out. The model is sequential, so the duplicate-post race and the atomicity of the counter's read-modify-write are not captured.
- Float semantics: temperatures are exact decimals and averages are hundredths rounded half away from zero. `Float#round`'s binary rounding on inputs that are not exact is not modelled.
- Ruby interpreter messages (`NoMethodError`, `TypeError`, `NameError`) are written in one Ruby version's wording, and `inspect` does not escape characters. The exact text is version dependent.
- `String#downcase` is modelled on ASCII letters only.
- `Date.parse` is modelled only on texts that begin with a `YYYY-MM-DD` date with a four-digit year. Other formats Ruby would accept are not modelled.
- app/services/create_tweet_service.rb is left out. It is a superseded pass-through whose behaviour lives in SDK service files that are not part of this model.
- lib/open_weather_sdk.rb is left out. It holds only configuration and `require` wiring.
- The controller's `tweet_params` is left out. The city arrives as an optional string.
- ResponseBuilder's constructor is the datatype `ResponseBuilder.Builder`. It stores both fields unchanged by construction, so it has no contract of its own.
- The `Location::` and `Weather::` namespace lookups are resolved to the classes shown (see above).
- CreateTweetService.Call never writes the cache. It takes a read-only snapshot and returns no cache, and `ReadCachedTweet` has no `modifies` clause. Nothing in the application calls `CacheStore.set`, so cache hits are reached only through `SetAt` in lemmas.
- CacheStore.FreshAt and CacheStore.CacheRecord assume the cached hash has the shape `SetAt` writes: each `cached_at` entry is a time in milliseconds, and `tweet` is a posted-tweet success hash. Two kinds of error are not modelled. First, the errors `is_fresh?` would raise on other shapes (app/lib/cache_store.rb:23-25): `dig` on a `cached_at` that is not a hash, and `Time.parse` on a value that is not a time string. Second, a cached `:tweet` of another shape reaching the controller. `Pipeline.Statuses` and `Pipeline.CachedTweetAnswered` hold under this assumption. Nothing in the application calls `CacheStore.set`, so only such records are ever written.
- FetchWeatherForecastService.Call and CreateTweetService.Call read the cache as the snapshot `entries`, and do not call the `Store` methods. `ReadCachedForecast` and `ReadCachedTweet` prove the snapshot reading equal to the live store's answers.

## Findings

| source | as written | input that shows it | evidently intended | confidence | as-written member | corrected member |
|---|---|---|---|---|---|---|
| app/lib/clients/open_weather_client.rb:10-11 | `make_request` first calls `BaseService.check_api_rate_limit`, which `BaseService` does not define, so it raises `NoMethodError` before `Net::HTTP` is reached | `POST /v1/tweets` with city "London" and no cached tweet: the geocoder's rescue turns the exception into its fixed `SERVICE_ERROR`, and the answer is 502 "Unable to find coordinates for the specified city" without any request reaching the provider | a rate-limit check that lets requests through, after which the provider's answer is returned, as the client's own tests expect | not executed | Pipeline.AsWrittenLiveRequestFails | Pipeline.LiveSuccessCalls |
