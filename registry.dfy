/**
 * `platformHandlers`: the table from each platform to its display label, its
 * configured flag and the adapter that sends to it, together with a way to
 * run that adapter against abstract I/O outcomes.
 */
module Registry {
  import opened Wrappers
  import opened Constants
  import opened Results
  import opened Env
  import WhatsAppAdapter
  import TelegramAdapter
  import ArattaiAdapter
  import TwitterAdapter

  /** The four sender functions the table can name. */
  datatype Sender = DeliverWhatsAppMessage | DeliverTelegramMessage | DeliverArattaiMessage | DeliverTweet

  /** The platform each sender delivers to. */
  function SenderPlatform(sender: Sender): PlatformId {
    match sender
    case DeliverWhatsAppMessage => WhatsApp
    case DeliverTelegramMessage => Telegram
    case DeliverArattaiMessage => Arattai
    case DeliverTweet => Twitter
  }

  datatype Handler = Handler(displayLabel: string, isConfigured: bool, sender: Sender)

  /** The handler table for the given environment; it has an entry for every platform. */
  function PlatformHandlers(env: Environment): (r: map<PlatformId, Handler>)
    ensures forall id: PlatformId :: id in r
  {
    var table := map[
      WhatsApp := Handler("WhatsApp", WhatsAppAdapter.IsConfigured(WhatsAppAdapter.LoadSettings(env)), DeliverWhatsAppMessage),
      Telegram := Handler("Telegram", TelegramAdapter.IsConfigured(TelegramAdapter.LoadSettings(env)), DeliverTelegramMessage),
      Arattai := Handler("Arattai", ArattaiAdapter.IsConfigured(ArattaiAdapter.LoadSettings(env)), DeliverArattaiMessage),
      Twitter := Handler("Twitter / X", TwitterAdapter.IsConfigured(TwitterAdapter.LoadSettings(env)), DeliverTweet)];
    PlatformIdsEnumerate();
    assert forall id: PlatformId :: id in PlatformIds ==> id in table;
    table
  }

  /** What the outside world answers to one adapter's requests. */
  datatype AdapterIo =
    | WhatsAppIo(created: seq<CallOutcome<string>>)
    | TelegramIo(replies: seq<FetchOutcome>)
    | ArattaiIo(sentAt: string, replies: seq<FetchOutcome>)
    | TwitterIo(clientError: Option<string>, tweet: CallOutcome<string>)

  /** The answers are meant for this sender and there is one per request it makes. */
  predicate IoFits(env: Environment, sender: Sender, message: string, header: Option<string>, io: AdapterIo) {
    match sender
    case DeliverWhatsAppMessage =>
      io.WhatsAppIo?
      && |io.created| == |WhatsAppAdapter.Requests(WhatsAppAdapter.LoadSettings(env), message, header)|
    case DeliverTelegramMessage =>
      io.TelegramIo?
      && |io.replies| == |TelegramAdapter.Requests(TelegramAdapter.LoadSettings(env), message, header)|
    case DeliverArattaiMessage =>
      io.ArattaiIo?
      && |io.replies| == |ArattaiAdapter.Requests(ArattaiAdapter.LoadSettings(env), message, header, io.sentAt)|
    case DeliverTweet =>
      io.TwitterIo?
  }

  /** Whether the adapter behind a sender finds its settings in the environment complete. */
  predicate SenderConfigured(env: Environment, sender: Sender) {
    match sender
    case DeliverWhatsAppMessage => WhatsAppAdapter.IsConfigured(WhatsAppAdapter.LoadSettings(env))
    case DeliverTelegramMessage => TelegramAdapter.IsConfigured(TelegramAdapter.LoadSettings(env))
    case DeliverArattaiMessage => ArattaiAdapter.IsConfigured(ArattaiAdapter.LoadSettings(env))
    case DeliverTweet => TwitterAdapter.IsConfigured(TwitterAdapter.LoadSettings(env))
  }

  /**
   * `handler.sender(message, header)` run to completion against the given
   * answers; whatever the answers, it reports under its own platform, and
   * `skipped` exactly when its adapter is not configured.
   */
  function RunSender(env: Environment, sender: Sender, message: string, header: Option<string>, io: AdapterIo): (r: PlatformResult)
    requires IoFits(env, sender, message, header, io)
    ensures r.platform == SenderPlatform(sender)
    ensures r.status == Skipped <==> !SenderConfigured(env, sender)
  {
    match sender
    case DeliverWhatsAppMessage =>
      WhatsAppAdapter.SkipsIffUnconfigured(WhatsAppAdapter.LoadSettings(env), message, header, io.created);
      WhatsAppAdapter.Deliver(WhatsAppAdapter.LoadSettings(env), message, header, io.created)
    case DeliverTelegramMessage =>
      TelegramAdapter.SkipsIffUnconfigured(TelegramAdapter.LoadSettings(env), message, header, io.replies);
      TelegramAdapter.Deliver(TelegramAdapter.LoadSettings(env), message, header, io.replies)
    case DeliverArattaiMessage =>
      ArattaiAdapter.SkipsIffUnconfigured(ArattaiAdapter.LoadSettings(env), message, header, io.sentAt, io.replies);
      ArattaiAdapter.Deliver(ArattaiAdapter.LoadSettings(env), message, header, io.sentAt, io.replies)
    case DeliverTweet =>
      TwitterAdapter.Deliver(TwitterAdapter.LoadSettings(env), io.clientError, message, header, io.tweet)
  }

  /** Each platform's sender is that platform's adapter: whatever happens, it reports under that platform. */
  lemma HandlerReportsOwnPlatform(env: Environment, id: PlatformId, message: string, header: Option<string>, io: AdapterIo)
    requires IoFits(env, PlatformHandlers(env)[id].sender, message, header, io)
    ensures RunSender(env, PlatformHandlers(env)[id].sender, message, header, io).platform == id
  {
    assert SenderPlatform(PlatformHandlers(env)[id].sender) == id;
  }

  /** A sender reports `skipped` exactly when its table entry says the platform is not configured. */
  lemma HandlerSkipsIffUnconfigured(env: Environment, id: PlatformId, message: string, header: Option<string>, io: AdapterIo)
    requires IoFits(env, PlatformHandlers(env)[id].sender, message, header, io)
    ensures RunSender(env, PlatformHandlers(env)[id].sender, message, header, io).status == Skipped
        <==> !PlatformHandlers(env)[id].isConfigured
  {
    var handler := PlatformHandlers(env)[id];
    assert handler.isConfigured == SenderConfigured(env, handler.sender);
  }

  /** The table agrees with `envConfig` on every platform's label and configured flag. */
  lemma HandlersMirrorConfigs(env: Environment, id: PlatformId)
    ensures PlatformHandlers(env)[id].isConfigured == GetPlatformConfig(env, id).isConfigured
    ensures PlatformHandlers(env)[id].displayLabel == GetPlatformConfig(env, id).displayLabel
  {
  }
}
