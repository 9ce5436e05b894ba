/** app/lib/clients/twitter_client.rb: posting one text to X. The X client's `post`
    is the oracle `x`, which gives the parsed reply or the exception raised for a
    text. */
module TwitterClient {
  import opened Optional
  import opened Text
  import opened RubyJson
  import opened Records
  import BaseService

  const ServiceName := "Clients::TwitterClient"
  const TextRequired := "Tweet text is required"
  const FailurePrefix := "Unable to post tweet: "

  function Failure(message: string, stamp: string): ErrorEnvelope {
    BaseService.BuildError(ServiceName, BaseService.Code(ServiceError), FailurePrefix + message, stamp, retryable := true)
  }

  /** `{ success: true, tweet_id: response["data"]["id"], text: response["data"]["text"] }`,
      the id read first. */
  function ReadReply(reply: Json): (r: Eval<TweetPosted>)
    ensures reply.JObj? && Lookup(reply.members, "data").JObj? ==>
      var data := Lookup(reply.members, "data").members;
      r == Value(TweetPosted(Lookup(data, "id"), Lookup(data, "text")))
    ensures !(reply.JObj? || reply.JStr?) ==> r.Raise?
  {
    match Index2(reply, "data", "id")
    case Raise(m) => Raise(m)
    case Value(id) =>
      match Index2(reply, "data", "text")
      case Raise(m) => Raise(m)
      case Value(t) => Value(TweetPosted(id, t))
  }

  /** `post_tweet(text)`. A blank or nil text is refused with no post; otherwise
      exactly one post of that text is made, and its reply's `data.id` and
      `data.text` are the result; any exception (the client's own, or reading a
      reply without `data`) becomes a retryable `SERVICE_ERROR` carrying its text. */
  function PostTweet(text: Option<string>, x: string -> XOutcome, stamp: string): (t: Traced<Outcome<TweetPosted>>)
    ensures !t.result.Raised?
    ensures t.result.Err? ==> t.result.error.service == Some(ServiceName)
    ensures IsBlank(text) ==>
      t == Traced(Err(ErrorEnvelope("VALIDATION_ERROR", TextRequired, Some(ServiceName), false, stamp)), [])
    ensures !IsBlank(text) ==>
      && t.calls == [PostCall(text.value)]
      && (x(text.value).XRaised? ==>
            t.result == Err(ErrorEnvelope("SERVICE_ERROR", FailurePrefix + x(text.value).message, Some(ServiceName), true, stamp)))
      && (x(text.value).XReplied? ==>
            var reply := x(text.value).reply;
            && (reply.JObj? && Lookup(reply.members, "data").JObj? ==>
                  var data := Lookup(reply.members, "data").members;
                  t.result == Ok(TweetPosted(Lookup(data, "id"), Lookup(data, "text"))))
            && (reply.JObj? && Lookup(reply.members, "data") == JNull ==>
                  t.result == Err(ErrorEnvelope("SERVICE_ERROR", FailurePrefix + NoMethod("[]", JNull), Some(ServiceName), true, stamp))))
  {
    if IsBlank(text) then
      Traced(Err(BaseService.BuildError(ServiceName, BaseService.Code(ValidationError), TextRequired, stamp)), [])
    else
      var result :=
        match x(text.value)
        case XRaised(m) => Err(Failure(m, stamp))
        case XReplied(reply) =>
          (match ReadReply(reply)
           case Raise(m) => Err(Failure(m, stamp))
           case Value(p) => Ok(p));
      Traced(result, [PostCall(text.value)])
  }

  /** Every failure of a posted text is retryable, and every result with a post is
      either the reply's data or a `SERVICE_ERROR`. */
  lemma PostFailuresRetryable(text: string, x: string -> XOutcome, stamp: string)
    requires !IsBlankString(text)
    ensures var r := PostTweet(Some(text), x, stamp).result;
      r.Err? ==> r.error.code == "SERVICE_ERROR" && r.error.retryable
  {
  }

  /** The weather-report example: X echoing the text back gives that text and the
      new id. */
  lemma EchoedText(text: string, id: string, x: string -> XOutcome, stamp: string)
    requires !IsBlankString(text)
    requires x(text) == XReplied(JObj([Member("data", JObj([Member("id", JStr(id)), Member("text", JStr(text))]))]))
    ensures PostTweet(Some(text), x, stamp).result == Ok(TweetPosted(JStr(id), JStr(text)))
  {
    var data := [Member("id", JStr(id)), Member("text", JStr(text))];
    assert Lookup(data, "text") == JStr(text);
    assert data[..1] == [Member("id", JStr(id))];
    assert Lookup(data, "id") == JStr(id) by {
      assert data[1].key != "id" by { assert data[1].key[0] != "id"[0]; }
    }
  }
}
