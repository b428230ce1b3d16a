/**
 * The WhatsApp adapter: one Twilio message per configured recipient. The
 * Twilio SDK is not modelled; each `client.messages.create` call is an
 * outcome supplied by the caller, in recipient order.
 */
module WhatsAppAdapter {
  import opened Wrappers
  import opened Text
  import opened Constants
  import opened Results
  import opened Env

  /** The values the module reads from the environment when it loads. */
  datatype Settings = Settings(
    accountSid: Option<string>,
    authToken: Option<string>,
    fromNumber: Option<string>,
    recipients: seq<string>)

  /** The settings read from `WHATSAPP_ACCOUNT_SID`, `WHATSAPP_AUTH_TOKEN`, `WHATSAPP_FROM` and `WHATSAPP_RECIPIENTS`. */
  function LoadSettings(env: Environment): (s: Settings)
    ensures s.accountSid == Lookup(env, "WHATSAPP_ACCOUNT_SID")
    ensures s.authToken == Lookup(env, "WHATSAPP_AUTH_TOKEN")
    ensures s.fromNumber == Lookup(env, "WHATSAPP_FROM")
    ensures s.recipients == ParseList(Lookup(env, "WHATSAPP_RECIPIENTS"))
  {
    Settings(
      Lookup(env, "WHATSAPP_ACCOUNT_SID"),
      Lookup(env, "WHATSAPP_AUTH_TOKEN"),
      Lookup(env, "WHATSAPP_FROM"),
      ParseList(Lookup(env, "WHATSAPP_RECIPIENTS")))
  }

  /** `isWhatsAppConfigured`. */
  predicate IsConfigured(s: Settings) {
    IsTruthy(s.accountSid) && IsTruthy(s.authToken) && IsTruthy(s.fromNumber) && |s.recipients| > 0
  }

  /** The adapter is configured exactly when the three credentials are set and the recipient list names someone. */
  lemma ConfiguredFromEnv(env: Environment)
    ensures IsConfigured(LoadSettings(env)) <==>
      && IsSet(env, "WHATSAPP_ACCOUNT_SID") && IsSet(env, "WHATSAPP_AUTH_TOKEN") && IsSet(env, "WHATSAPP_FROM")
      && HasEntry(Lookup(env, "WHATSAPP_RECIPIENTS"))
  {
    ParseListNonEmpty(Lookup(env, "WHATSAPP_RECIPIENTS"));
  }

  const MissingCredentialsDetail := "WhatsApp credentials are missing. Set WHATSAPP_ACCOUNT_SID, WHATSAPP_AUTH_TOKEN, WHATSAPP_FROM and WHATSAPP_RECIPIENTS."

  const AddressPrefix := "whatsapp:"

  /** The `to` address of a recipient: prefixed with `whatsapp:` unless it already is. */
  function Address(recipient: string): (r: string)
    ensures StartsWith(r, AddressPrefix)
    ensures r == recipient || r == AddressPrefix + recipient
    ensures StartsWith(recipient, AddressPrefix) ==> r == recipient
  {
    EnsurePrefix(recipient, AddressPrefix)
  }

  lemma AddressIdempotent(recipient: string)
    ensures Address(Address(recipient)) == Address(recipient)
  {
  }

  /** The arguments of one `client.messages.create` call. */
  datatype TwilioMessage = TwilioMessage(from: string, to: string, body: string)

  /** The messages `deliverWhatsAppMessage` creates: none when unconfigured, else one per recipient. */
  function Requests(s: Settings, message: string, header: Option<string>): (r: seq<TwilioMessage>)
    ensures !IsConfigured(s) ==> r == []
    ensures IsConfigured(s) ==> |r| == |s.recipients|
    ensures forall i :: 0 <= i < |r| ==>
      && r[i].from == s.fromNumber.value
      && r[i].to == Address(s.recipients[i])
      && r[i].body == HeaderedBody(message, header)
  {
    if !IsConfigured(s) then []
    else
      var body := HeaderedBody(message, header);
      seq(|s.recipients|, i requires 0 <= i < |s.recipients| =>
        TwilioMessage(s.fromNumber.value, Address(s.recipients[i]), body))
  }

  /**
   * `deliverWhatsAppMessage(message, header)`, given the outcome of each
   * created message (its sid, or the error it threw).
   */
  function Deliver(s: Settings, message: string, header: Option<string>, created: seq<CallOutcome<string>>): (r: PlatformResult)
    requires |created| == |Requests(s, message, header)|
    ensures r.platform == WhatsApp
    ensures !IsConfigured(s) ==> r == Report(WhatsApp, Skipped, MissingCredentialsDetail)
    ensures IsConfigured(s) && (forall i :: 0 <= i < |created| ==> created[i].Resolved?) ==>
      && r.status == Sent
      && r.detail == DeliveredDetail(|s.recipients|, "recipient")
      && r.metadata.Some? && r.metadata.value.SidsMetadata?
      && |r.metadata.value.sids| == |s.recipients|
      && forall i :: 0 <= i < |created| ==> created[i] == Resolved(r.metadata.value.sids[i])
    ensures IsConfigured(s) && (exists i :: 0 <= i < |created| && created[i].Thrown?) ==>
      && r.status == Failed && r.metadata.None?
      && exists i :: 0 <= i < |created| && created[i] == Thrown(r.detail)
  {
    if !IsConfigured(s) then Report(WhatsApp, Skipped, MissingCredentialsDetail)
    else
      match AwaitAll(created)
      case Resolved(sids) =>
        PlatformResult(WhatsApp, Sent, DeliveredDetail(|sids|, "recipient"), Some(SidsMetadata(sids)))
      case Thrown(m) => Report(WhatsApp, Failed, m)
  }

  /** The adapter reports `skipped` exactly when it is not configured; otherwise it reports `sent` or `failed`. */
  lemma SkipsIffUnconfigured(s: Settings, message: string, header: Option<string>, created: seq<CallOutcome<string>>)
    requires |created| == |Requests(s, message, header)|
    ensures Deliver(s, message, header, created).status == Skipped <==> !IsConfigured(s)
  {
    if IsConfigured(s) && !(forall i :: 0 <= i < |created| ==> created[i].Resolved?) {
      var i :| 0 <= i < |created| && !created[i].Resolved?;
      assert created[i].Thrown?;
    }
  }
}
