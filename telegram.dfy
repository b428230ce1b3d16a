/**
 * The Telegram adapter: one Bot API `sendMessage` post per configured chat.
 * Each `fetch` is an outcome supplied by the caller, in chat order.
 */
module TelegramAdapter {
  import opened Wrappers
  import opened Text
  import opened Constants
  import opened Results
  import opened Env

  datatype Settings = Settings(token: Option<string>, chatIds: seq<string>)

  /** The settings read from `TELEGRAM_BOT_TOKEN` and `TELEGRAM_CHAT_IDS`. */
  function LoadSettings(env: Environment): (s: Settings)
    ensures s.token == Lookup(env, "TELEGRAM_BOT_TOKEN")
    ensures s.chatIds == ParseList(Lookup(env, "TELEGRAM_CHAT_IDS"))
  {
    Settings(Lookup(env, "TELEGRAM_BOT_TOKEN"), ParseList(Lookup(env, "TELEGRAM_CHAT_IDS")))
  }

  /** `isTelegramConfigured`. */
  predicate IsConfigured(s: Settings) {
    IsTruthy(s.token) && |s.chatIds| > 0
  }

  /** The adapter is configured exactly when the token is set and the chat list names a chat. */
  lemma ConfiguredFromEnv(env: Environment)
    ensures IsConfigured(LoadSettings(env)) <==>
      IsSet(env, "TELEGRAM_BOT_TOKEN") && HasEntry(Lookup(env, "TELEGRAM_CHAT_IDS"))
  {
    ParseListNonEmpty(Lookup(env, "TELEGRAM_CHAT_IDS"));
  }

  const BotEndpoint := "https://api.telegram.org/bot"

  /** `apiBase`: empty without a token, else the bot endpoint followed by the token. */
  function ApiBase(token: Option<string>): (r: string)
    ensures !IsTruthy(token) ==> r == ""
    ensures IsTruthy(token) ==> StartsWith(r, BotEndpoint) && r[|BotEndpoint|..] == token.value
  {
    if IsTruthy(token) then BotEndpoint + token.value else ""
  }

  const MissingCredentialsDetail := "Telegram Bot credentials missing. Set TELEGRAM_BOT_TOKEN and TELEGRAM_CHAT_IDS."

  /** The text posted: `*header*\n\nmessage` when the header is truthy, else `message`. */
  function Payload(message: string, header: Option<string>): (r: string)
    ensures IsTruthy(header) ==> r == "*" + header.value + "*\n\n" + message
    ensures !IsTruthy(header) ==> r == message
  {
    if IsTruthy(header) then "*" + header.value + "*\n\n" + message else message
  }

  /** The URL and JSON body of one `postMessage` call. */
  datatype SendMessage = SendMessage(
    url: string,
    chatId: string,
    text: string,
    parseMode: string,
    disableWebPagePreview: bool)

  /**
   * Whether the adapter skips without posting anything (`!isTelegramConfigured || !token`).
   * Without a token the adapter is not configured anyway, so the second condition adds nothing.
   */
  predicate Skips(s: Settings): (r: bool)
    ensures r <==> !IsConfigured(s)
  {
    !IsConfigured(s) || !IsTruthy(s.token)
  }

  /** The posts `deliverTelegramMessage` issues: none when it skips, else one per chat with one shared text. */
  function Requests(s: Settings, message: string, header: Option<string>): (r: seq<SendMessage>)
    ensures Skips(s) ==> r == []
    ensures !Skips(s) ==> |r| == |s.chatIds|
    ensures forall i :: 0 <= i < |r| ==>
      && r[i].url == ApiBase(s.token) + "/sendMessage"
      && r[i].chatId == s.chatIds[i]
      && r[i].text == Payload(message, header)
      && r[i].parseMode == "Markdown" && r[i].disableWebPagePreview
  {
    if Skips(s) then []
    else
      var text := Payload(message, header);
      seq(|s.chatIds|, i requires 0 <= i < |s.chatIds| =>
        SendMessage(ApiBase(s.token) + "/sendMessage", s.chatIds[i], text, "Markdown", true))
  }

  /** The error `postMessage` throws for a response that is not OK. */
  function RejectionMessage(reply: HttpReply): (r: string)
    ensures StartsWith(r, "Telegram responded with " + NatToString(reply.status))
    ensures r == "Telegram responded with " + NatToString(reply.status) + ": " + reply.statusText + ". " + reply.body
  {
    "Telegram responded with " + NatToString(reply.status) + ": " + reply.statusText + ". " + reply.body
  }

  /** What awaiting one `postMessage` yields: nothing on an OK response, else an error. */
  function PostOutcome(f: FetchOutcome): (r: CallOutcome<()>)
    ensures r.Resolved? <==> f.Reply? && f.reply.ok
    ensures f.Reply? && !f.reply.ok ==> r == Thrown(RejectionMessage(f.reply))
    ensures f.FetchRejected? ==> r == Thrown(f.message)
  {
    match f
    case Reply(reply) => if reply.ok then Resolved(()) else Thrown(RejectionMessage(reply))
    case FetchRejected(m) => Thrown(m)
  }

  /** `deliverTelegramMessage(message, header)`, given what each post's `fetch` produced. */
  function Deliver(s: Settings, message: string, header: Option<string>, replies: seq<FetchOutcome>): (r: PlatformResult)
    requires |replies| == |Requests(s, message, header)|
    ensures r.platform == Telegram && r.metadata.None?
    ensures Skips(s) ==> r == Report(Telegram, Skipped, MissingCredentialsDetail)
    ensures !Skips(s) && (forall i :: 0 <= i < |replies| ==> PostOutcome(replies[i]).Resolved?) ==>
      r == Report(Telegram, Sent, DeliveredDetail(|s.chatIds|, "chat"))
    ensures !Skips(s) && (exists i :: 0 <= i < |replies| && PostOutcome(replies[i]).Thrown?) ==>
      && r.status == Failed
      && exists i :: 0 <= i < |replies| && PostOutcome(replies[i]) == Thrown(r.detail)
  {
    if Skips(s) then Report(Telegram, Skipped, MissingCredentialsDetail)
    else
      var posts := seq(|replies|, i requires 0 <= i < |replies| => PostOutcome(replies[i]));
      assert forall i :: 0 <= i < |replies| ==> posts[i] == PostOutcome(replies[i]);
      match AwaitAll(posts)
      case Resolved(_) => Report(Telegram, Sent, DeliveredDetail(|s.chatIds|, "chat"))
      case Thrown(m) => Report(Telegram, Failed, m)
  }

  /** The adapter reports `skipped` exactly when it is not configured; otherwise it reports `sent` or `failed`. */
  lemma SkipsIffUnconfigured(s: Settings, message: string, header: Option<string>, replies: seq<FetchOutcome>)
    requires |replies| == |Requests(s, message, header)|
    ensures Deliver(s, message, header, replies).status == Skipped <==> !IsConfigured(s)
  {
    if !Skips(s) && !(forall i :: 0 <= i < |replies| ==> PostOutcome(replies[i]).Resolved?) {
      var i :| 0 <= i < |replies| && !PostOutcome(replies[i]).Resolved?;
      assert PostOutcome(replies[i]).Thrown?;
    }
  }
}
