/**
 * The Arattai adapter: the same JSON payload posted once to every configured
 * webhook. Each `fetch` is an outcome supplied by the caller, in webhook
 * order; the `sentAt` timestamp (the clock) is a parameter.
 */
module ArattaiAdapter {
  import opened Wrappers
  import opened Text
  import opened Constants
  import opened Results
  import opened Env

  datatype Settings = Settings(webhooks: seq<string>)

  function LoadSettings(env: Environment): (s: Settings)
    ensures s.webhooks == ParseList(Lookup(env, "ARATTAI_WEBHOOK_URLS"))
  {
    Settings(ParseList(Lookup(env, "ARATTAI_WEBHOOK_URLS")))
  }

  /** `isArattaiConfigured`. */
  predicate IsConfigured(s: Settings) {
    |s.webhooks| > 0
  }

  /** The adapter is configured exactly when the webhook list names a webhook. */
  lemma ConfiguredFromEnv(env: Environment)
    ensures IsConfigured(LoadSettings(env)) <==> HasEntry(Lookup(env, "ARATTAI_WEBHOOK_URLS"))
  {
    ParseListNonEmpty(Lookup(env, "ARATTAI_WEBHOOK_URLS"));
  }

  const MissingWebhooksDetail := "No Arattai webhooks configured. Set ARATTAI_WEBHOOK_URLS with comma separated webhook URLs."
  const DefaultTitle := "PulseCast Broadcast"
  const PayloadSource := "PulseCast Dashboard"

  datatype WebhookPayload = WebhookPayload(title: string, message: string, sentAt: string, source: string)

  /** The payload: the header as title (`header ?? default`, so an empty header stays empty), the message unchanged. */
  function MakePayload(message: string, header: Option<string>, sentAt: string): (p: WebhookPayload)
    ensures header.Some? ==> p.title == header.value
    ensures header.None? ==> p.title == DefaultTitle
    ensures p.message == message && p.sentAt == sentAt && p.source == PayloadSource
  {
    WebhookPayload(header.GetOr(DefaultTitle), message, sentAt, PayloadSource)
  }

  datatype WebhookPost = WebhookPost(url: string, payload: WebhookPayload)

  /** The posts `deliverArattaiMessage` issues: none when unconfigured, else one per webhook, all with one payload. */
  function Requests(s: Settings, message: string, header: Option<string>, sentAt: string): (r: seq<WebhookPost>)
    ensures !IsConfigured(s) ==> r == []
    ensures IsConfigured(s) ==> |r| == |s.webhooks|
    ensures forall i :: 0 <= i < |r| ==>
      r[i].url == s.webhooks[i] && r[i].payload == MakePayload(message, header, sentAt)
  {
    if !IsConfigured(s) then []
    else
      var payload := MakePayload(message, header, sentAt);
      seq(|s.webhooks|, i requires 0 <= i < |s.webhooks| => WebhookPost(s.webhooks[i], payload))
  }

  /** The error a webhook post throws for a response that is not OK. */
  function RejectionMessage(reply: HttpReply): (r: string)
    ensures StartsWith(r, "Webhook returned " + NatToString(reply.status) + " ")
    ensures r == "Webhook returned " + NatToString(reply.status) + " " + reply.statusText + ": " + reply.body
  {
    "Webhook returned " + NatToString(reply.status) + " " + reply.statusText + ": " + reply.body
  }

  /** What awaiting one webhook post yields: the response status when OK, else an error. */
  function PostOutcome(f: FetchOutcome): (r: CallOutcome<nat>)
    ensures f.Reply? && f.reply.ok ==> r == Resolved(f.reply.status)
    ensures f.Reply? && !f.reply.ok ==> r == Thrown(RejectionMessage(f.reply))
    ensures f.FetchRejected? ==> r == Thrown(f.message)
  {
    match f
    case Reply(reply) => if reply.ok then Resolved(reply.status) else Thrown(RejectionMessage(reply))
    case FetchRejected(m) => Thrown(m)
  }

  /** `deliverArattaiMessage(message, header)`, given the clock reading and what each post's `fetch` produced. */
  function Deliver(s: Settings, message: string, header: Option<string>, sentAt: string, replies: seq<FetchOutcome>): (r: PlatformResult)
    requires |replies| == |Requests(s, message, header, sentAt)|
    ensures r.platform == Arattai && r.metadata.None?
    ensures !IsConfigured(s) ==> r == Report(Arattai, Skipped, MissingWebhooksDetail)
    ensures IsConfigured(s) && (forall i :: 0 <= i < |replies| ==> PostOutcome(replies[i]).Resolved?) ==>
      r == Report(Arattai, Sent, DeliveredDetail(|s.webhooks|, "webhook"))
    ensures IsConfigured(s) && (exists i :: 0 <= i < |replies| && PostOutcome(replies[i]).Thrown?) ==>
      && r.status == Failed
      && exists i :: 0 <= i < |replies| && PostOutcome(replies[i]) == Thrown(r.detail)
  {
    if !IsConfigured(s) then Report(Arattai, Skipped, MissingWebhooksDetail)
    else
      var posts := seq(|replies|, i requires 0 <= i < |replies| => PostOutcome(replies[i]));
      assert forall i :: 0 <= i < |replies| ==> posts[i] == PostOutcome(replies[i]);
      match AwaitAll(posts)
      case Resolved(statuses) => Report(Arattai, Sent, DeliveredDetail(|statuses|, "webhook"))
      case Thrown(m) => Report(Arattai, Failed, m)
  }

  /** The adapter reports `skipped` exactly when it is not configured; otherwise it reports `sent` or `failed`. */
  lemma SkipsIffUnconfigured(s: Settings, message: string, header: Option<string>, sentAt: string, replies: seq<FetchOutcome>)
    requires |replies| == |Requests(s, message, header, sentAt)|
    ensures Deliver(s, message, header, sentAt, replies).status == Skipped <==> !IsConfigured(s)
  {
    if IsConfigured(s) && !(forall i :: 0 <= i < |replies| ==> PostOutcome(replies[i]).Resolved?) {
      var i :| 0 <= i < |replies| && !PostOutcome(replies[i]).Resolved?;
      assert PostOutcome(replies[i]).Thrown?;
    }
  }
}
