/**
 * The Twitter / X adapter: one status update, refused before any request
 * when it is longer than 280 characters. The `client.v2.tweet` call is an
 * outcome supplied by the caller.
 */
module TwitterAdapter {
  import opened Wrappers
  import opened Text
  import opened Constants
  import opened Results
  import opened Env

  datatype Settings = Settings(
    appKey: Option<string>,
    appSecret: Option<string>,
    accessToken: Option<string>,
    accessSecret: Option<string>)

  /** The settings read from the four `TWITTER_*` credentials. */
  function LoadSettings(env: Environment): (s: Settings)
    ensures s.appKey == Lookup(env, "TWITTER_APP_KEY")
    ensures s.appSecret == Lookup(env, "TWITTER_APP_SECRET")
    ensures s.accessToken == Lookup(env, "TWITTER_ACCESS_TOKEN")
    ensures s.accessSecret == Lookup(env, "TWITTER_ACCESS_SECRET")
  {
    Settings(
      Lookup(env, "TWITTER_APP_KEY"),
      Lookup(env, "TWITTER_APP_SECRET"),
      Lookup(env, "TWITTER_ACCESS_TOKEN"),
      Lookup(env, "TWITTER_ACCESS_SECRET"))
  }

  /** `isTwitterConfigured`. */
  predicate IsConfigured(s: Settings) {
    IsTruthy(s.appKey) && IsTruthy(s.appSecret) && IsTruthy(s.accessToken) && IsTruthy(s.accessSecret)
  }

  /** The adapter is configured exactly when all four credentials are set. */
  lemma ConfiguredFromEnv(env: Environment)
    ensures IsConfigured(LoadSettings(env)) <==>
      && IsSet(env, "TWITTER_APP_KEY") && IsSet(env, "TWITTER_APP_SECRET")
      && IsSet(env, "TWITTER_ACCESS_TOKEN") && IsSet(env, "TWITTER_ACCESS_SECRET")
  {
  }

  const MissingCredentialsDetail := "Twitter credentials missing. Set TWITTER_APP_KEY, TWITTER_APP_SECRET, TWITTER_ACCESS_TOKEN and TWITTER_ACCESS_SECRET."
  const MaxTweetLength := 280
  const PublishedDetail := "Published tweet successfully"

  /** The error thrown for a status of `n` characters that is too long. */
  function TooLongMessage(n: nat): (r: string)
    ensures StartsWith(r, "Tweet exceeds 280 characters (" + NatToString(n) + ")")
  {
    var head := "Tweet exceeds 280 characters (" + NatToString(n) + ")";
    var r := head + ". Shorten your message or remove the header.";
    assert r[..|head|] == head;
    r
  }

  /**
   * The text passed to `client.v2.tweet`, if the call is made at all:
   * configured, the client built without an error, and at most 280 characters.
   * `clientError` is the message of an error thrown by `new TwitterApi(...)`, if any.
   */
  function TweetRequest(s: Settings, clientError: Option<string>, message: string, header: Option<string>): (r: Option<string>)
    ensures r.Some? <==> IsConfigured(s) && clientError.None? && |HeaderedBody(message, header)| <= MaxTweetLength
    ensures r.Some? ==> r.value == HeaderedBody(message, header)
  {
    var status := HeaderedBody(message, header);
    if IsConfigured(s) && clientError.None? && |status| <= MaxTweetLength then Some(status) else None
  }

  /**
   * `deliverTweet(message, header)`, given the outcome of building the client
   * and of the tweet call (consulted only if it is made). The client is built
   * inside the `try` before the length check, so its error comes first.
   */
  function Deliver(s: Settings, clientError: Option<string>, message: string, header: Option<string>, tweet: CallOutcome<string>): (r: PlatformResult)
    ensures r.platform == Twitter
    ensures !IsConfigured(s) ==> r == Report(Twitter, Skipped, MissingCredentialsDetail)
    ensures IsConfigured(s) && clientError.Some? ==> r == Report(Twitter, Failed, clientError.value)
    ensures IsConfigured(s) && clientError.None? && |HeaderedBody(message, header)| > MaxTweetLength ==>
      r == Report(Twitter, Failed, TooLongMessage(|HeaderedBody(message, header)|))
    ensures TweetRequest(s, clientError, message, header).Some? && tweet.Resolved? ==>
      r == PlatformResult(Twitter, Sent, PublishedDetail, Some(TweetMetadata(tweet.value)))
    ensures TweetRequest(s, clientError, message, header).Some? && tweet.Thrown? ==>
      r == Report(Twitter, Failed, tweet.message)
  {
    if !IsConfigured(s) then Report(Twitter, Skipped, MissingCredentialsDetail)
    else if clientError.Some? then Report(Twitter, Failed, clientError.value)
    else
      var status := HeaderedBody(message, header);
      if |status| > MaxTweetLength then Report(Twitter, Failed, TooLongMessage(|status|))
      else
        match tweet
        case Resolved(id) => PlatformResult(Twitter, Sent, PublishedDetail, Some(TweetMetadata(id)))
        case Thrown(m) => Report(Twitter, Failed, m)
  }

  /** When no tweet is requested, the outcome of the tweet call cannot influence the result. */
  lemma NoTweetNoInfluence(s: Settings, clientError: Option<string>, message: string, header: Option<string>, t1: CallOutcome<string>, t2: CallOutcome<string>)
    requires TweetRequest(s, clientError, message, header).None?
    ensures Deliver(s, clientError, message, header, t1) == Deliver(s, clientError, message, header, t2)
  {
  }

  /** A status of exactly 280 characters is attempted; one of 281 is refused. */
  lemma LengthBoundary(s: Settings, message: string, header: Option<string>)
    requires IsConfigured(s)
    ensures |HeaderedBody(message, header)| == 280 ==> TweetRequest(s, None, message, header).Some?
    ensures |HeaderedBody(message, header)| == 281 ==> Deliver(s, None, message, header, Resolved("")).status == Failed
  {
  }
}
