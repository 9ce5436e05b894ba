/** One `POST /v1/tweets` end to end, with the real services wired together as the
    Ruby classes call each other: the controller calls the tweet service, which
    builds the report (current weather and forecast, each geocoding the city on its
    own) and posts it. Everything outside the program is the `World`. */
module Pipeline {
  import opened Optional
  import opened Text
  import opened RubyJson
  import opened Records
  import opened Dates
  import CacheStore
  import OpenWeatherClient
  import FetchGeocodingService
  import FetchCurrentWeatherService
  import FetchWeatherForecastService
  import BuildWeatherReportService
  import TwitterClient
  import CreateTweetService
  import TweetsController

  /** The transport's answers, X's answers, the cache contents, the clock (in ms,
      and as `Date.current`) and the `Time.current.iso8601` text. */
  datatype World = World(
    http: Request -> HttpOutcome,
    x: string -> XOutcome,
    entries: map<string, CacheStore.Entry>,
    now: int,
    today: CalendarDate,
    stamp: string)

  function Geocode(city: Option<string>, w: World): Traced<Outcome<Coordinates>> {
    FetchGeocodingService.Call(city, w.http, w.stamp)
  }

  function Current(city: Option<string>, w: World): Traced<Outcome<CurrentWeather>> {
    FetchCurrentWeatherService.Call(city, Geocode(city, w), w.http, w.stamp)
  }

  function Forecast(city: Option<string>, w: World): Traced<Outcome<Json>> {
    FetchWeatherForecastService.Call(city, w.entries, w.now, Geocode(city, w), w.http, w.stamp)
  }

  function Report(city: Option<string>, w: World): Traced<Outcome<string>> {
    BuildWeatherReportService.Call(city, Current(city, w), Forecast(city, w), w.today, w.stamp)
  }

  /** `Clients::TwitterClient.post_tweet` as the tweet service calls it. */
  function Post(w: World): string -> Traced<Outcome<TweetPosted>> {
    s => TwitterClient.PostTweet(Some(s), w.x, w.stamp)
  }

  function Tweet(city: Option<string>, w: World): Traced<Outcome<TweetCreated>> {
    CreateTweetService.Call(city, w.entries, w.now, Report(city, w), Post(w), w.stamp)
  }

  /** The request's rendered answer and the external calls it made. */
  function Handle(city: Option<string>, w: World): (t: Traced<TweetsController.Rendered>)
    ensures t.calls == Tweet(city, w).calls
    ensures t.result == TweetsController.Create(Tweet(city, w).result, w.stamp)
  {
    Traced(TweetsController.Create(Tweet(city, w).result, w.stamp), Tweet(city, w).calls)
  }

  /** Calls that contain no post. */
  predicate NoPost(calls: seq<Call>) {
    forall i :: 0 <= i < |calls| ==> calls[i].HttpCall?
  }

  /** No service before the tweet service posts anything. */
  lemma ReportMakesNoPost(city: Option<string>, w: World)
    ensures NoPost(Report(city, w).calls)
  {
    StagesMakeNoPost(city, w);
    var r := Report(city, w);
    if !IsBlank(city) && Current(city, w).result.Ok? {
      assert r.calls == Current(city, w).calls + Forecast(city, w).calls;
    }
  }

  lemma StagesMakeNoPost(city: Option<string>, w: World)
    ensures NoPost(Current(city, w).calls) && NoPost(Forecast(city, w).calls)
  {
    var g := Geocode(city, w);
    assert NoPost(g.calls);
    if !IsBlank(city) && g.result.Ok? {
      var c := g.result.value;
      assert Current(city, w).calls == g.calls + [HttpCall(FetchCurrentWeatherService.WeatherRequest(c))];
    }
  }

  /** The service never lets an exception reach the controller, and only ever
      reports validation or service errors, so the answer is 201, 422 or 502. */
  lemma Statuses(city: Option<string>, w: World)
    ensures Handle(city, w).result.status in {201, 422, 502}
  {
    var t := Tweet(city, w).result;
    if t.Err? {
      assert t.error.code in {"VALIDATION_ERROR", "SERVICE_ERROR"};
    }
  }

  /** At most one tweet is posted per request, and only as the last external call;
      when it is made, its text is the report just built. */
  lemma AtMostOnePostLast(city: Option<string>, w: World)
    ensures var calls := Handle(city, w).calls;
      forall i :: 0 <= i < |calls| - 1 ==> calls[i].HttpCall?
    ensures var calls := Handle(city, w).calls;
      |calls| > 0 && calls[|calls| - 1].PostCall? ==>
        Report(city, w).result.Ok? && calls[|calls| - 1] == PostCall(Report(city, w).result.value)
  {
    ReportMakesNoPost(city, w);
    var r := Report(city, w);
    var calls := Handle(city, w).calls;
    if !IsBlank(city) && CreateTweetService.CachedTweet(w.entries, city.value, w.now).None? && r.result.Ok? {
      var p := Post(w)(r.result.value);
      assert calls == r.calls + p.calls;
      BuildWeatherReportService.CallReportNotBlank(city, Current(city, w), Forecast(city, w), w.today, w.stamp);
      assert p.calls == [PostCall(r.result.value)];
    } else {
      assert NoPost(calls);
    }
  }

  /** A blank or missing city is answered 422 without any external call. */
  lemma BlankCity(city: Option<string>, w: World)
    requires IsBlank(city)
    ensures Handle(city, w).calls == []
    ensures Handle(city, w).result == TweetsController.Rendered(422, TweetsController.Failure(
      ErrorEnvelope("VALIDATION_ERROR", "City is required", Some("SocialNetwork::CreateTweetService"), false, w.stamp)))
  {
  }

  /** A fresh cached tweet is answered 201 with that tweet, without any external
      call, whatever the transport and X would say. */
  lemma CachedTweetAnswered(city: string, w: World, tweet: TweetCreated)
    requires !IsBlank(Some(city))
    requires CacheStore.FreshAt(w.entries, city, CacheStore.TweetField, w.now)
    requires CacheStore.RecordAt(w.entries, city, w.now).value.tweet == Some(tweet)
    ensures Handle(Some(city), w) == Traced(TweetsController.Rendered(201, TweetsController.Success(tweet)), [])
  {
  }

  /** A city the provider does not know: the current-weather stage stops the run
      after its single geocoding request, and the answer is 502 with the
      geocoder's message, not retryable, so no forecast is fetched and nothing is
      posted. */
  lemma UnknownCity(city: string, w: World)
    requires !IsBlank(Some(city))
    requires CreateTweetService.CachedTweet(w.entries, city, w.now).None?
    requires w.http(FetchGeocodingService.GeocodingRequest(city)).Responded?
    requires var r := w.http(FetchGeocodingService.GeocodingRequest(city)).response;
      IsSuccess(r.code) && r.body == Parsed(JArr([]))
    ensures Handle(Some(city), w).calls == [HttpCall(FetchGeocodingService.GeocodingRequest(city))]
    ensures Handle(Some(city), w).result == TweetsController.Rendered(502, TweetsController.Failure(
      ErrorEnvelope("SERVICE_ERROR", FetchGeocodingService.NotFound, Some("SocialNetwork::CreateTweetService"), false, w.stamp)))
  {
    FetchCurrentWeatherService.UnknownCityIsGeocodingError(city, w.http, w.stamp);
  }

  /** With `make_request` as written, every request that gets past validation and
      the tweet cache fails alike: the first geocoding call raises, the geocoder
      answers its fixed message, and the answer is 502, not retryable, whatever the
      provider and X would have said; no weather or forecast is requested and
      nothing is posted. */
  lemma AsWrittenLiveRequestFails(city: string, w: World)
    requires !IsBlank(Some(city))
    requires CreateTweetService.CachedTweet(w.entries, city, w.now).None?
    ensures var broken := w.(http := OpenWeatherClient.MakeRequestAsWritten);
      && Handle(Some(city), broken).calls == [HttpCall(FetchGeocodingService.GeocodingRequest(city))]
      && Handle(Some(city), broken).result == TweetsController.Rendered(502, TweetsController.Failure(
           ErrorEnvelope("SERVICE_ERROR", FetchGeocodingService.NotFound, Some("SocialNetwork::CreateTweetService"), false, w.stamp)))
  {
    var broken := w.(http := OpenWeatherClient.MakeRequestAsWritten);
    var g := Geocode(Some(city), broken);
    assert g == Traced(Err(FetchGeocodingService.NotFoundError(w.stamp)), [HttpCall(FetchGeocodingService.GeocodingRequest(city))]);
  }

  /** A live success with no cached forecast makes exactly five external calls, in
      this order: geocoding and the metric weather request, geocoding again and the
      forecast request, then the post of the report; the 201 body carries the city
      as given and the report posted. */
  lemma LiveSuccessCalls(city: string, w: World)
    requires !IsBlank(Some(city))
    requires CreateTweetService.CachedTweet(w.entries, city, w.now).None?
    requires FetchWeatherForecastService.CachedForecast(w.entries, city, w.now).None?
    requires Handle(Some(city), w).result.status == 201
    ensures Geocode(Some(city), w).result.Ok?
    ensures var c := Geocode(Some(city), w).result.value;
      Handle(Some(city), w).calls == [
        HttpCall(FetchGeocodingService.GeocodingRequest(city)),
        HttpCall(FetchCurrentWeatherService.WeatherRequest(c)),
        HttpCall(FetchGeocodingService.GeocodingRequest(city)),
        HttpCall(FetchWeatherForecastService.ForecastRequest(c)),
        PostCall(Report(Some(city), w).result.value)]
    ensures Handle(Some(city), w).result.body.tweet.city == city
    ensures Handle(Some(city), w).result.body.tweet.weatherReport == Report(Some(city), w).result.value
  {
    var t := Tweet(Some(city), w);
    assert t.result.Ok?;
    var r := Report(Some(city), w);
    assert r.result.Ok?;
    BuildWeatherReportService.CallReportNotBlank(Some(city), Current(Some(city), w), Forecast(Some(city), w), w.today, w.stamp);
    var p := Post(w)(r.result.value);
    assert p.calls == [PostCall(r.result.value)];
    assert t.calls == r.calls + p.calls;
    var cur := Current(Some(city), w);
    var fc := Forecast(Some(city), w);
    assert cur.result.Ok?;
    assert r.calls == cur.calls + fc.calls;
    var g := Geocode(Some(city), w);
    assert g.result.Ok?;
    var c := g.result.value;
    assert g.calls == [HttpCall(FetchGeocodingService.GeocodingRequest(city))];
    assert cur.calls == g.calls + [HttpCall(FetchCurrentWeatherService.WeatherRequest(c))];
    assert fc.calls == g.calls + [HttpCall(FetchWeatherForecastService.ForecastRequest(c))];
    var gc, wc, fcc, pc := g.calls[0], cur.calls[1], fc.calls[1], p.calls[0];
    assert t.calls == [gc] + [wc] + ([gc] + [fcc]) + [pc];
    FiveCalls(gc, wc, fcc, pc);
  }

  lemma FiveCalls(g: Call, c: Call, f: Call, p: Call)
    ensures [g] + [c] + ([g] + [f]) + [p] == [g, c, g, f, p]
  {
  }
}
