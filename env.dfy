/**
 * Configuration read from the process environment: comma lists, the
 * per-platform configuration records and the list of configured platforms.
 * The environment is passed in as a map from variable name to value.
 */
module Env {
  import opened Wrappers
  import opened Text
  import opened Constants

  type Environment = map<string, string>

  /** `process.env[name]`. */
  function Lookup(env: Environment, name: string): (r: Option<string>)
    ensures r.Some? <==> name in env
    ensures r.Some? ==> r.value == env[name]
  {
    if name in env then Some(env[name]) else None
  }

  /**
   * `parseList` (exported as `getEnvList`): an unset variable lists nothing;
   * a set one is split on commas, each entry trimmed and blanks dropped.
   */
  function ParseList(value: Option<string>): (r: seq<string>)
    ensures value.None? ==> r == []
    ensures forall i :: 0 <= i < |r| ==> r[i] != [] && IsTrimmed(r[i]) && Trim(r[i]) == r[i] && ',' !in r[i]
  {
    match value
    case None => []
    case Some(v) =>
      var r := CommaList(v);
      assert forall i :: 0 <= i < |r| ==> Trim(r[i]) == r[i] by {
        forall i | 0 <= i < |r| ensures Trim(r[i]) == r[i] { TrimOfTrimmed(r[i]); }
      }
      r
  }

  /** The variable is set and holds a character that is neither whitespace nor a comma. */
  predicate HasEntry(value: Option<string>) {
    value.Some? && exists k :: 0 <= k < |value.value| && !IsWhitespace(value.value[k]) && value.value[k] != ','
  }

  /** A variable lists something exactly when it holds more than blanks and commas. */
  lemma ParseListNonEmpty(value: Option<string>)
    ensures ParseList(value) != [] <==> HasEntry(value)
  {
    if value.Some? {
      if HasEntry(value) {
        CommaListNonBlank(value.value);
      } else {
        CommaListOfBlank(value.value);
      }
    }
  }

  /** Listing entries joined by commas gives the entries back, so `ParseList` keeps their order. */
  lemma ParseListOfJoin(xs: seq<string>)
    requires forall i :: 0 <= i < |xs| ==> xs[i] != [] && IsTrimmed(xs[i]) && ',' !in xs[i]
    ensures ParseList(Some(Join(xs, ","))) == xs
  {
    CommaListOfJoin(xs);
  }

  /** A comma separates the entries on its left from those on its right; blank pieces vanish. */
  lemma ParseListSplitsAtComma(a: string, b: string)
    ensures ParseList(Some(a + "," + b)) == ParseList(Some(a)) + ParseList(Some(b))
    ensures ',' !in a ==> ParseList(Some(a)) == if Trim(a) == [] then [] else [Trim(a)]
  {
    CommaListAroundComma(a, b);
    if ',' !in a {
      CommaListOfPiece(a);
    }
  }

  /** The `metadata` field of each configuration record. */
  datatype ConfigMetadata =
    | WhatsAppMetadata(from: Option<string>, recipients: seq<string>)
    | TelegramMetadata(chatIds: seq<string>)
    | ArattaiMetadata(webhooks: seq<string>)
    | TwitterMetadata

  datatype PlatformConfig = PlatformConfig(
    id: PlatformId,
    displayLabel: string,
    description: string,
    documentationUrl: string,
    isConfigured: bool,
    metadata: ConfigMetadata)

  /** `Boolean(process.env[name])`. */
  predicate IsSet(env: Environment, name: string) {
    IsTruthy(Lookup(env, name))
  }

  // The descriptive texts of the `configs` record.
  const WhatsAppDescription := "Send rich WhatsApp messages via Twilio or the official WhatsApp Business Cloud API."
  const WhatsAppDocumentationUrl := "https://developers.facebook.com/docs/whatsapp/cloud-api/get-started"
  const TelegramDescription := "Broadcast to channels or groups using a Telegram Bot token and chat IDs."
  const TelegramDocumentationUrl := "https://core.telegram.org/bots/features#sending-messages"
  const ArattaiDescription := "Send posts to Arattai groups using an incoming webhook integration."
  const ArattaiDocumentationUrl := "https://www.arattai.in/"
  const TwitterDescription := "Publish inspirational tweets using the OAuth 1.0a credentials for your Automation app."
  const TwitterDocumentationUrl := "https://developer.twitter.com/en/docs/twitter-api"

  /** `envConfig.getPlatformConfig(id)`: the entry for `id` in the `configs` record. */
  function GetPlatformConfig(env: Environment, id: PlatformId): (r: PlatformConfig)
    ensures r.id == id
  {
    match id
    case WhatsApp =>
      var recipients := ParseList(Lookup(env, "WHATSAPP_RECIPIENTS"));
      PlatformConfig(
        WhatsApp,
        "WhatsApp",
        WhatsAppDescription,
        WhatsAppDocumentationUrl,
        IsSet(env, "WHATSAPP_ACCOUNT_SID") && IsSet(env, "WHATSAPP_AUTH_TOKEN") && IsSet(env, "WHATSAPP_FROM")
          && |recipients| > 0,
        WhatsAppMetadata(Lookup(env, "WHATSAPP_FROM"), recipients))
    case Telegram =>
      var chatIds := ParseList(Lookup(env, "TELEGRAM_CHAT_IDS"));
      PlatformConfig(
        Telegram,
        "Telegram",
        TelegramDescription,
        TelegramDocumentationUrl,
        IsSet(env, "TELEGRAM_BOT_TOKEN") && |chatIds| > 0,
        TelegramMetadata(chatIds))
    case Arattai =>
      var webhooks := ParseList(Lookup(env, "ARATTAI_WEBHOOK_URLS"));
      PlatformConfig(
        Arattai,
        "Arattai",
        ArattaiDescription,
        ArattaiDocumentationUrl,
        |webhooks| > 0,
        ArattaiMetadata(webhooks))
    case Twitter =>
      PlatformConfig(
        Twitter,
        "Twitter / X",
        TwitterDescription,
        TwitterDocumentationUrl,
        IsSet(env, "TWITTER_APP_KEY") && IsSet(env, "TWITTER_APP_SECRET")
          && IsSet(env, "TWITTER_ACCESS_TOKEN") && IsSet(env, "TWITTER_ACCESS_SECRET"),
        TwitterMetadata)
  }

  /** `Object.values(envConfig.platformConfigs)`: the records in key order. */
  function PlatformConfigs(env: Environment): (r: seq<PlatformConfig>)
    ensures |r| == |PlatformIds|
    ensures forall i :: 0 <= i < |r| ==> r[i] == GetPlatformConfig(env, PlatformIds[i])
  {
    seq(|PlatformIds|, i requires 0 <= i < |PlatformIds| => GetPlatformConfig(env, PlatformIds[i]))
  }

  /** The configured platforms among `ids`, in the order of `ids`. */
  function ConfiguredAmong(env: Environment, ids: seq<PlatformId>): (r: seq<PlatformId>)
    requires forall i, j :: 0 <= i < j < |ids| ==> PlatformIndex(ids[i]) < PlatformIndex(ids[j])
    ensures forall id :: id in r <==> id in ids && GetPlatformConfig(env, id).isConfigured
    ensures forall i, j :: 0 <= i < j < |r| ==> PlatformIndex(r[i]) < PlatformIndex(r[j])
  {
    if ids == [] then []
    else
      SortedTail(ids);
      var rest := ConfiguredAmong(env, ids[1..]);
      if GetPlatformConfig(env, ids[0]).isConfigured then [ids[0]] + rest else rest
  }

  /** The tail of a list in increasing `PLATFORM_IDS` order is in that order too, and comes after the head. */
  lemma SortedTail(ids: seq<PlatformId>)
    requires ids != []
    requires forall i, j :: 0 <= i < j < |ids| ==> PlatformIndex(ids[i]) < PlatformIndex(ids[j])
    ensures forall i, j :: 0 <= i < j < |ids[1..]| ==> PlatformIndex(ids[1..][i]) < PlatformIndex(ids[1..][j])
    ensures forall id :: id in ids[1..] ==> PlatformIndex(ids[0]) < PlatformIndex(id)
  {
  }

  /**
   * `envConfig.listConfiguredIds()`: exactly the configured platforms, in
   * `PLATFORM_IDS` order, each once.
   */
  function ListConfiguredIds(env: Environment): (r: seq<PlatformId>)
    ensures forall id :: id in r <==> GetPlatformConfig(env, id).isConfigured
    ensures forall i, j :: 0 <= i < j < |r| ==> PlatformIndex(r[i]) < PlatformIndex(r[j])
    ensures Distinct(r)
  {
    PlatformIdsEnumerate();
    ConfiguredAmong(env, PlatformIds)
  }
}
