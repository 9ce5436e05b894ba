/** app/services/social_network/create_tweet_service.rb: the top orchestrator. A
    fresh cached tweet is returned as it is; otherwise the weather report is built
    and posted. The report service's answer is passed in as `report`, posting is
    the function `post` (what `TwitterClient.post_tweet` gives for a text), and the
    cache is read at time `now` from the snapshot `entries`. */
module CreateTweetService {
  import opened Optional
  import opened Text
  import opened RubyJson
  import opened Records
  import BaseService
  import CacheStore

  const ServiceName := "SocialNetwork::CreateTweetService"
  const CityRequired := "City is required"
  const FailurePrefix := "Unable to create weather tweet: "

  /** `is_fresh?(city, :tweet)` followed by `get(city)&.dig(:tweet)`: the cached tweet
      when the field is fresh and the record holds one. */
  function CachedTweet(entries: map<string, CacheStore.Entry>, city: string, now: int): (r: Option<TweetCreated>)
    ensures r.Some? <==>
      CacheStore.FreshAt(entries, city, CacheStore.TweetField, now) && CacheStore.RecordAt(entries, city, now).value.tweet.Some?
    ensures r.Some? ==> r == CacheStore.RecordAt(entries, city, now).value.tweet
  {
    if CacheStore.FreshAt(entries, city, CacheStore.TweetField, now) then CacheStore.RecordAt(entries, city, now).value.tweet
    else None
  }

  /** The same lookup made on the live store: `is_fresh?` first, then `get`. */
  method ReadCachedTweet(store: CacheStore.Store, city: string, now: int) returns (r: Option<TweetCreated>)
    ensures r == CachedTweet(store.entries, city, now)
  {
    var isFresh := store.IsFresh(city, CacheStore.TweetField, now);
    r := None;
    if isFresh {
      var cached := store.Get(city, now);
      if cached.Some? && cached.value.tweet.Some? {
        r := cached.value.tweet;
      }
    }
  }

  function Failure(message: string, stamp: string): ErrorEnvelope {
    BaseService.BuildError(ServiceName, BaseService.Code(ServiceError), FailurePrefix + message, stamp, retryable := true)
  }

  /** `SocialNetwork::CreateTweetService.call(city:)`. A blank city is refused; a
      fresh cached tweet is returned with no report and no post; a report error
      becomes a non-retryable `SERVICE_ERROR` with its message and nothing is
      posted; a post error becomes a retryable `SERVICE_ERROR` with its message;
      success carries the city as given, the report, and the post's id and text. */
  function Call(city: Option<string>, entries: map<string, CacheStore.Entry>, now: int,
                report: Traced<Outcome<string>>, post: string -> Traced<Outcome<TweetPosted>>, stamp: string)
    : (t: Traced<Outcome<TweetCreated>>)
    ensures !t.result.Raised?
    ensures t.result.Err? ==> t.result.error.service == Some(ServiceName)
    ensures t.result.Err? ==> t.result.error.code in {"VALIDATION_ERROR", "SERVICE_ERROR"}
    ensures IsBlank(city) ==>
      t == Traced(Err(ErrorEnvelope("VALIDATION_ERROR", CityRequired, Some(ServiceName), false, stamp)), [])
    ensures !IsBlank(city) && CachedTweet(entries, city.value, now).Some? ==>
      t == Traced(Ok(CacheStore.RecordAt(entries, city.value, now).value.tweet.value), [])
    ensures !IsBlank(city) && CachedTweet(entries, city.value, now).None? ==>
      && (report.result.Err? ==>
            t == Traced(Err(ErrorEnvelope("SERVICE_ERROR", report.result.error.message, Some(ServiceName), false, stamp)), report.calls))
      && (report.result.Raised? ==>
            t == Traced(Err(ErrorEnvelope("SERVICE_ERROR", FailurePrefix + report.result.message, Some(ServiceName), true, stamp)), report.calls))
      && (report.result.Ok? ==>
            var p := post(report.result.value);
            && t.calls == report.calls + p.calls
            && (p.result.Err? ==> t.result == Err(ErrorEnvelope("SERVICE_ERROR", p.result.error.message, Some(ServiceName), true, stamp)))
            && (p.result.Raised? ==> t.result == Err(ErrorEnvelope("SERVICE_ERROR", FailurePrefix + p.result.message, Some(ServiceName), true, stamp)))
            && (p.result.Ok? ==>
                  t.result == Ok(TweetCreated(city.value, report.result.value, p.result.value.tweetId, p.result.value.text))))
  {
    if IsBlank(city) then
      Traced(Err(BaseService.BuildError(ServiceName, BaseService.Code(ValidationError), CityRequired, stamp)), [])
    else
      match CachedTweet(entries, city.value, now)
      case Some(tweet) => Traced(Ok(tweet), [])
      case None =>
        match report.result
        case Raised(m) => Traced(Err(Failure(m, stamp)), report.calls)
        case Err(e) =>
          Traced(Err(BaseService.BuildError(ServiceName, BaseService.Code(ServiceError), e.message, stamp, retryable := false)), report.calls)
        case Ok(text) =>
          var p := post(text);
          var calls := report.calls + p.calls;
          match p.result
          case Raised(m) => Traced(Err(Failure(m, stamp)), calls)
          case Err(e) =>
            Traced(Err(BaseService.BuildError(ServiceName, BaseService.Code(ServiceError), e.message, stamp, retryable := true)), calls)
          case Ok(posted) =>
            Traced(Ok(TweetCreated(city.value, text, posted.tweetId, posted.text)), calls)
  }

  /** A failed report decides the result on its own: the poster is never asked. */
  lemma ReportFailureSkipsPost(city: Option<string>, entries: map<string, CacheStore.Entry>, now: int,
                               report: Traced<Outcome<string>>, p1: string -> Traced<Outcome<TweetPosted>>,
                               p2: string -> Traced<Outcome<TweetPosted>>, stamp: string)
    requires !report.result.Ok?
    ensures Call(city, entries, now, report, p1, stamp) == Call(city, entries, now, report, p2, stamp)
  {
  }

  /** A fresh cached tweet decides the result on its own: neither the report nor
      the poster plays any part, and no external call is made. */
  lemma CachedTweetShortCircuits(city: string, entries: map<string, CacheStore.Entry>, now: int,
                                 r1: Traced<Outcome<string>>, r2: Traced<Outcome<string>>,
                                 p1: string -> Traced<Outcome<TweetPosted>>, p2: string -> Traced<Outcome<TweetPosted>>, stamp: string)
    requires !IsBlank(Some(city)) && CachedTweet(entries, city, now).Some?
    ensures Call(Some(city), entries, now, r1, p1, stamp) == Call(Some(city), entries, now, r2, p2, stamp)
    ensures Call(Some(city), entries, now, r1, p1, stamp).calls == []
  {
  }

  /** A fresh `cached_at[:tweet]` without a stored tweet falls through to the live
      path. */
  lemma FreshFlagWithoutTweet(city: string, entries: map<string, CacheStore.Entry>, now: int,
                              report: Traced<Outcome<string>>, post: string -> Traced<Outcome<TweetPosted>>, stamp: string)
    requires !IsBlank(Some(city)) && CacheStore.FreshAt(entries, city, CacheStore.TweetField, now)
    requires CacheStore.RecordAt(entries, city, now).value.tweet.None?
    requires report.result.Err?
    ensures Call(Some(city), entries, now, report, post, stamp).calls == report.calls
  {
  }

  /** The example of a failing post: a report text followed by the poster's
      "Twitter API error" gives a retryable `SERVICE_ERROR` with that message. */
  lemma PostErrorExample(city: string, entries: map<string, CacheStore.Entry>, now: int, text: string,
                         post: string -> Traced<Outcome<TweetPosted>>, e: ErrorEnvelope, stamp: string)
    requires !IsBlank(Some(city)) && CachedTweet(entries, city, now).None?
    requires post(text).result == Err(e) && e.message == "Twitter API error"
    ensures var r := Call(Some(city), entries, now, Traced(Ok(text), []), post, stamp).result;
      r.Err? && r.error.code == "SERVICE_ERROR" && r.error.message == "Twitter API error" && r.error.retryable
  {
  }
}
