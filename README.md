# PulseCast broadcaster — a Dafny model

PulseCast is a small web application that composes one wellness message and sends it to up to four
platforms at once: WhatsApp (through Twilio), Telegram (through the Bot API), Arattai (through
incoming webhooks) and Twitter / X. This project models its core in Dafny and proves properties of
the model:

- **Vocabularies** (`Constants`). The four platform ids with their wire names, the seven message
  categories, the six tones and the suggested hashtags.
- **Configuration** (`Env`). `parseList` splits a variable on commas, trims each entry and drops
  blanks. Each platform has its configuration record, and `listConfiguredIds` lists the configured
  platforms. The process environment is a map parameter.
- **Adapters** (`WhatsAppAdapter`, `TelegramAdapter`, `ArattaiAdapter`, `TwitterAdapter`). Each
  adapter does the following:
  - reads its settings;
  - decides whether it is configured;
  - builds the requests it would make (Twilio messages, `sendMessage` posts, webhook posts, one
    tweet);
  - turns the outcome of each request into one `PlatformResult` with status `sent`, `skipped` or
    `failed`.

  The outcomes are parameters: a resolved value or an error message per request, in request order.
- **Handler table** (`Registry`). Each platform maps to its label, its configured flag and its
  sender.
- **Request schema** (`Schema`). These are the rules a broadcast request body must satisfy. The
  model lists every issue found in an invalid body and turns a valid body into a typed request.
- **Endpoint** (`Broadcast`). This covers:
  - `buildHeader`, a method that pushes segments onto a list, proved equal to a specification
    function;
  - `dispatchToPlatforms`, in which every platform gets its own result whatever happens to the
    others;
  - the `POST` and `GET` handlers.
- **Dashboard** (`Dashboard`). This covers:
  - the toggles behind the chips;
  - the merge of typed-in custom hashtags;
  - the rule that disables the send button;
  - the initial platform selection and the configured count;
  - the component's state as a class whose methods update it in place.

Some choices follow the code as written.

- **Category separator.** The separator placed between categories in the header is the three
  characters U+00E2 U+20AC U+00A2, surrounded by spaces. They are what
  `src/app/api/broadcast/route.ts:115` holds: the UTF-8 bytes of "•" read back as Windows-1252. The
  evidently intended separator is " • "; the model keeps the characters the file holds.
- **Headline of blanks.** A headline of whitespace only is truthy, so it opens the header as an
  empty line.
- **Title of an empty header.** Arattai's title is `header ?? "PulseCast Broadcast"`, so an empty
  header stays an empty title.
- **Duplicated platforms.** They are accepted by the schema and sent to twice.

## Model

| member | source | states |
|---|---|---|
| Text.TrimStart | src/lib/env.ts:6 | The result is a suffix of the input, everything cut off is whitespace, and it does not start with whitespace. |
| Text.TrimEnd | src/lib/env.ts:6 | The result is a prefix of the input, everything cut off is whitespace, and it does not end with whitespace. |
| Text.Trim | src/lib/env.ts:6 | The result has no leading or trailing whitespace, is no longer than the input, and uses only the input's characters. |
| Text.TrimCutsEnds | src/lib/env.ts:6 | The trimmed text is a slice of the input, and everything before and after that slice is whitespace. |
| Text.TrimBlank | src/components/dashboard/broadcast-dashboard.tsx:148-153 | Trimming gives the empty string exactly when the text is whitespace only. |
| Text.TrimIdempotent | src/lib/env.ts:6 | Trimming twice is trimming once. |
| Text.Split | src/lib/env.ts:5 | Splitting on one character gives at least one piece. No piece contains the separator, and every piece's characters come from the input. |
| Text.JoinSplit | src/lib/env.ts:5 | Joining the pieces of a split with the separator gives the input back. |
| Text.SplitJoin | src/app/api/broadcast/route.ts:126 | Splitting a join of separator-free pieces gives the pieces back. |
| Text.SplitAroundSeparator | src/lib/env.ts:5 | A separator in the input splits it into the pieces on its left followed by the pieces on its right. |
| Text.TrimAndDropBlank | src/lib/env.ts:6-7 | Every kept entry is non-empty and trimmed. No more entries come out than went in. |
| Text.CommaList | src/lib/env.ts:5-7 | Every entry of a comma list is non-empty, trimmed and free of commas. |
| Text.CommaListOfBlank | src/components/dashboard/broadcast-dashboard.tsx:334-338 | Input made only of whitespace and commas yields no entry. |
| Text.CommaListNonBlank | src/lib/env.ts:3-7 | Input holding a character that is neither whitespace nor a comma yields at least one entry. |
| Text.CommaListOfJoin | src/lib/env.ts:3-7 | Clean entries joined by commas are listed back unchanged and in order. |
| Text.EnsurePrefix | src/lib/platforms/whatsapp.ts:36-38 | The result starts with the prefix. It is the input when the input already starts with it, else the prefix followed by the input. |
| Text.EnsurePrefixIdempotent | src/app/api/broadcast/route.ts:123 | Prefixing twice is prefixing once. |
| Text.TagWord | src/app/api/broadcast/route.ts:123 | A printed hashtag starts with `#`. It is the tag itself, or the tag after one added `#`. |
| Text.ToUpperAscii | src/app/api/broadcast/route.ts:114 | Upper-casing keeps the length and leaves no lower-case ASCII letter. Each such letter becomes its capital, and every other character is kept. |
| Text.NatToString | src/lib/platforms/whatsapp.ts:47-49 | A count prints as a non-empty string of digits with no leading zero, except for 0 itself. |
| Text.NatToStringValue | src/lib/platforms/whatsapp.ts:47-49 | The printed digits read back as the count. |
| Constants.ParsePlatformId | src/lib/constants.ts:1-8 | A string read as a platform id is that platform's wire name. |
| Constants.ParsePlatformKey | src/lib/constants.ts:1-8 | Every platform's wire name reads back as the platform. |
| Constants.PlatformIndex | src/lib/constants.ts:1-6 | Every platform sits at its index in `PLATFORM_IDS`. |
| Constants.PlatformIdsEnumerate | src/lib/constants.ts:1-6 | `PLATFORM_IDS` lists every platform exactly once, as whatsapp, telegram, arattai, twitter in that order. |
| Constants.MessageCategoriesDistinct | src/lib/constants.ts:10-18 | There are seven distinct message categories. |
| Constants.ToneOptionsDistinct | src/lib/constants.ts:22-29 | There are six distinct tones. |
| Constants.DefaultHashtagsPrefixed | src/lib/constants.ts:33-40 | Every suggested hashtag starts with `#`, so header prefixing leaves the list unchanged. |
| Results.ParseStatus | src/lib/platforms/types.ts:3 | A string read as a status is that status's wire name. |
| Results.ParseStatusName | src/lib/platforms/types.ts:3 | Every status's wire name reads back as the status. |
| Results.HeaderedBody | src/lib/platforms/whatsapp.ts:31 | With a truthy header the body is the header, a blank line, then the message; otherwise it is the message alone. |
| Results.DeliveredDetail | src/lib/platforms/whatsapp.ts:47-49 | The detail starts with "Delivered to " and ends with a space, the noun, and an `s` unless the count is 1. When the noun does not end in `s`, the detail ends in `s` exactly when the count is not 1. |
| Results.DeliveredDetailCount | src/lib/platforms/whatsapp.ts:47-49 | The detail is "Delivered to ", then digits that read back as the count, then a space, the noun, and an `s` unless the count is 1. |
| Results.AwaitAll | src/lib/platforms/whatsapp.ts:32-42 | The result resolves exactly when every call resolves, and then holds their values in call order. Otherwise its error is the error of one of the rejected calls. |
| Env.Lookup | src/lib/platforms/whatsapp.ts:5-7 | A variable reads as present exactly when it is set, and then as its value. |
| Env.ParseList | src/lib/env.ts:3-7 | An unset variable lists nothing. Every listed entry is non-empty, trimmed and free of commas. |
| Env.ParseListOfJoin | src/lib/env.ts:3-7 | Clean entries joined by commas are listed back unchanged. |
| Env.ParseListSplitsAtComma | src/lib/env.ts:3-7 | A comma splits the list into the entries on its left followed by those on its right. A comma-free value lists its trimmed self, or nothing when blank. |
| Env.ParseListNonEmpty | src/lib/env.ts:3-7 | A variable lists at least one entry exactly when it is set and holds a character that is neither whitespace nor a comma. |
| Env.GetPlatformConfig | src/lib/env.ts:78-80 | The record looked up for a platform carries that platform's id; its label and configured flag are tied to the handler table by Registry.HandlersMirrorConfigs. |
| Env.PlatformConfigs | src/lib/env.ts:77 | There is one record per platform, in `PLATFORM_IDS` order. |
| Env.ConfiguredAmong | src/lib/env.ts:82 | The filter keeps exactly the configured platforms among its input and preserves their order. |
| Env.ListConfiguredIds | src/lib/env.ts:81-83 | The list holds exactly the configured platforms, each once, in `PLATFORM_IDS` order. |
| WhatsAppAdapter.LoadSettings | src/lib/platforms/whatsapp.ts:5-8 | The account sid, auth token and sender are the values of `WHATSAPP_ACCOUNT_SID`, `WHATSAPP_AUTH_TOKEN` and `WHATSAPP_FROM`. The recipients are `WHATSAPP_RECIPIENTS` read as a comma list. |
| WhatsAppAdapter.ConfiguredFromEnv | src/lib/platforms/whatsapp.ts:5-14 | The adapter is configured exactly when the three credentials are set and non-empty and `WHATSAPP_RECIPIENTS` holds something other than blanks and commas. |
| WhatsAppAdapter.Address | src/lib/platforms/whatsapp.ts:36-38 | A `to` address starts with `whatsapp:` and is the recipient, prefixed only when it lacks the prefix. |
| WhatsAppAdapter.AddressIdempotent | src/lib/platforms/whatsapp.ts:36-38 | Addressing an address changes nothing. |
| WhatsAppAdapter.Requests | src/lib/platforms/whatsapp.ts:20-42 | Nothing is sent when unconfigured. Otherwise there is one message per recipient, in order, from the configured number, with the shared headered body. |
| WhatsAppAdapter.Deliver | src/lib/platforms/whatsapp.ts:16-62 | The result is `skipped` with the credentials detail when unconfigured. It is `sent` with the recipient count and every sid in order when all messages are created. Otherwise it is `failed` with one creation error. |
| WhatsAppAdapter.SkipsIffUnconfigured | src/lib/platforms/whatsapp.ts:20-61 | The adapter reports `skipped` exactly when it is not configured. |
| TelegramAdapter.LoadSettings | src/lib/platforms/telegram.ts:4-5 | The token is the value of `TELEGRAM_BOT_TOKEN`. The chats are `TELEGRAM_CHAT_IDS` read as a comma list. |
| TelegramAdapter.ConfiguredFromEnv | src/lib/platforms/telegram.ts:4-7 | The adapter is configured exactly when the token is set and non-empty and `TELEGRAM_CHAT_IDS` holds something other than blanks and commas. |
| TelegramAdapter.ApiBase | src/lib/platforms/telegram.ts:9 | The API base is empty without a token; with one, it is the bot endpoint followed by the token. |
| TelegramAdapter.Payload | src/lib/platforms/telegram.ts:47 | With a truthy header the text is the header in asterisks, a blank line, then the message; otherwise it is the message. |
| TelegramAdapter.Requests | src/lib/platforms/telegram.ts:11-23 | Nothing is posted when skipping. Otherwise there is one `sendMessage` per chat, in order, with one text, Markdown parsing and no link preview. |
| TelegramAdapter.RejectionMessage | src/lib/platforms/telegram.ts:25-29 | The error for a failed response is "Telegram responded with ", the status, ": ", the status text, ". " and the response body. |
| TelegramAdapter.PostOutcome | src/lib/platforms/telegram.ts:11-31 | A post succeeds exactly on an OK response. A non-OK response throws the status error; a rejected fetch keeps its message. |
| TelegramAdapter.Deliver | src/lib/platforms/telegram.ts:33-64 | The result is `skipped` when unconfigured or tokenless. It is `sent` with the chat count when every post succeeds. Otherwise it is `failed` with one post's error. |
| TelegramAdapter.Skips | src/lib/platforms/telegram.ts:37 | The adapter skips exactly when it is not configured: the extra token test adds nothing. |
| TelegramAdapter.SkipsIffUnconfigured | src/lib/platforms/telegram.ts:37-62 | The adapter reports `skipped` exactly when it is not configured. |
| ArattaiAdapter.LoadSettings | src/lib/platforms/arattai.ts:4 | The webhooks are `ARATTAI_WEBHOOK_URLS` read as a comma list. |
| ArattaiAdapter.ConfiguredFromEnv | src/lib/platforms/arattai.ts:4-6 | The adapter is configured exactly when `ARATTAI_WEBHOOK_URLS` holds something other than blanks and commas. |
| ArattaiAdapter.MakePayload | src/lib/platforms/arattai.ts:22-27 | The title is the header when one is given (even an empty one), else "PulseCast Broadcast". The message and time are passed through, with the fixed source. |
| ArattaiAdapter.Requests | src/lib/platforms/arattai.ts:29-37 | Nothing is posted when unconfigured. Otherwise there is one post per webhook, in order, all with the same payload. |
| ArattaiAdapter.RejectionMessage | src/lib/platforms/arattai.ts:39-44 | The error for a failed response is "Webhook returned ", the status, a space, the status text, ": " and the response body. |
| ArattaiAdapter.PostOutcome | src/lib/platforms/arattai.ts:30-47 | An OK response yields its status. A non-OK response throws the status error; a rejected fetch keeps its message. |
| ArattaiAdapter.Deliver | src/lib/platforms/arattai.ts:8-65 | The result is `skipped` when unconfigured. It is `sent` with the webhook count when every post succeeds. Otherwise it is `failed` with one post's error. |
| ArattaiAdapter.SkipsIffUnconfigured | src/lib/platforms/arattai.ts:12-63 | The adapter reports `skipped` exactly when it is not configured. |
| TwitterAdapter.LoadSettings | src/lib/platforms/twitter.ts:4-7 | The four credentials are the values of `TWITTER_APP_KEY`, `TWITTER_APP_SECRET`, `TWITTER_ACCESS_TOKEN` and `TWITTER_ACCESS_SECRET`. |
| TwitterAdapter.ConfiguredFromEnv | src/lib/platforms/twitter.ts:4-10 | The adapter is configured exactly when all four credentials are set and non-empty. |
| TwitterAdapter.TooLongMessage | src/lib/platforms/twitter.ts:35-37 | The error for a long status starts with the 280-character notice and the status length. |
| TwitterAdapter.TweetRequest | src/lib/platforms/twitter.ts:16-40 | A tweet is attempted exactly when the adapter is configured, the client was built without an error, and the status is at most 280 characters. Its text is the headered status. |
| TwitterAdapter.Deliver | src/lib/platforms/twitter.ts:12-57 | The result is `skipped` when unconfigured. It is `failed` with the client's error when building the client throws, which comes before the length check. It is `failed` with the length error when the status is too long. Otherwise it is `sent` with the tweet id, or `failed` with the call's error. |
| TwitterAdapter.NoTweetNoInfluence | src/lib/platforms/twitter.ts:16-40 | When no tweet is attempted, the tweet call's outcome cannot affect the result. |
| TwitterAdapter.LengthBoundary | src/lib/platforms/twitter.ts:34 | A status of 280 characters is attempted; one of 281 fails. |
| Registry.PlatformHandlers | src/lib/platforms/index.ts:8-36 | Every platform has a handler. |
| Registry.HandlerReportsOwnPlatform | src/lib/platforms/index.ts:8-36 | Whatever its I/O does, each platform's sender reports under that platform. |
| Registry.RunSender | src/lib/platforms/index.ts:8-36 | Whatever its I/O does, a sender reports under its own platform, and reports `skipped` exactly when its own adapter is not configured. |
| Registry.HandlerSkipsIffUnconfigured | src/lib/platforms/index.ts:8-36 | A sender reports `skipped` exactly when its table entry says the platform is not configured. |
| Registry.HandlersMirrorConfigs | src/lib/platforms/index.ts:8-36 | The table's label and configured flag agree with the configuration record of every platform. |
| Schema.UnknownIndices | src/lib/schema.ts:16-23 | The list holds exactly the positions of the entries outside the allowed list, in increasing order. It is empty exactly when every entry is allowed. |
| Schema.MessageIssues | src/lib/schema.ts:10 | A message is refused exactly when it is shorter than 5 characters. |
| Schema.HeadlineIssues | src/lib/schema.ts:11-15 | A headline, when given, is refused as too short below 2 characters and as too long above 80. |
| Schema.CategoryIssues | src/lib/schema.ts:16-18 | The issues flag an empty category list and each category outside `MESSAGE_CATEGORIES`, and only those. |
| Schema.ToneIssues | src/lib/schema.ts:19 | A tone, when given, is refused exactly when it is outside `TONE_OPTIONS`. |
| Schema.HashtagIssues | src/lib/schema.ts:20 | Hashtags, when given, are refused exactly when there are more than 6. |
| Schema.PlatformIssues | src/lib/schema.ts:21-23 | The issues flag an empty platform list and each entry that is not a platform id, and only those. |
| Schema.Validate | src/lib/schema.ts:9-24 | A body has no issue exactly when it satisfies every rule of the schema. |
| Schema.ValidIffNothingApplies | src/lib/schema.ts:9-24 | A body satisfies the schema exactly when none of the issues applies to it. |
| Schema.CustomMessage | src/lib/schema.ts:10-23 | The schema sets its own message exactly for a short message, a short or long headline, no category and no platform; each such message is non-empty. |
| Schema.ValidateReportsExactly | src/lib/schema.ts:9-24 | An issue is reported exactly when it applies to the body. |
| Schema.ReportedWithMessage | src/app/api/broadcast/route.ts:35-42 | Every issue that applies reaches the 422 response, carrying the schema's own message whenever the schema sets one. |
| Schema.ParsePlatforms | src/lib/schema.ts:21-23 | Reading wire names succeeds exactly when each is a platform id, and gives the platforms whose names they are, in order. |
| Schema.ToPayload | src/lib/schema.ts:26 | Writing a request out keeps its platforms, each as a name that reads back as the platform. |
| Schema.SafeParse | src/lib/schema.ts:9-24 | Parsing succeeds exactly on a valid body and gives a request that writes back as that body. Otherwise it reports the non-empty issue list. |
| Schema.ParseToPayload | src/lib/schema.ts:9-26 | A request whose body is valid parses back from its body as itself. |
| Schema.AcceptedRequestShape | src/lib/schema.ts:10-23 | An accepted request has at least one platform, at least one category and a message of at least 5 characters. |
| Broadcast.ComposeHeader | src/app/api/broadcast/route.ts:96-127 | There is no header exactly when there is no truthy headline, no truthy tone and no hashtag, and the categories are empty or the single empty string. |
| Broadcast.JoinIsEmpty | src/app/api/broadcast/route.ts:115-116 | A join with a non-empty separator is empty only for no pieces or one empty piece. |
| Broadcast.PrefixHashtags | src/app/api/broadcast/route.ts:123 | The loop gives every tag with a `#` added where it lacked one, in order. |
| Broadcast.CollectDescriptors | src/app/api/broadcast/route.ts:113-116 | The descriptors collected entry by entry are the upper-cased tone when truthy, then the joined categories when there are any and they are not empty, as `Broadcast.DescriptorLine` spells out. |
| Broadcast.BuildHeader | src/app/api/broadcast/route.ts:96-127 | The header built by pushing segments is the specified header. |
| Broadcast.HeaderLines | src/app/api/broadcast/route.ts:107-126 | When no input holds a newline, the header's lines are exactly its segments: the trimmed headline, the descriptor line and the hashtag line, each when present. |
| Broadcast.DescriptorLine | src/app/api/broadcast/route.ts:113-120 | The descriptor line is the upper-cased tone and the joined categories separated by " | ", or the tone alone, or the categories alone, or absent when both are. |
| Broadcast.HashtagLineWords | src/app/api/broadcast/route.ts:122-124 | When no tag holds a space, the hashtag line splits into one word per tag, each starting with `#`. |
| Broadcast.HashtagLineIdempotent | src/app/api/broadcast/route.ts:123 | Prefixing already-prefixed tags changes nothing. |
| Broadcast.BlankHeadlineLine | src/app/api/broadcast/route.ts:109-111 | A headline of blanks opens the header with an empty line; alone it gives an empty header. |
| Broadcast.AcceptedRequestHasHeader | src/app/api/broadcast/route.ts:113-126 | Every request the schema accepts gets a header, whose descriptors include the joined categories. |
| Broadcast.Dispatch | src/app/api/broadcast/route.ts:64-94 | There is one result per requested platform. A platform without a handler is `skipped`. A fulfilled sender's result is kept as is. A rejected sender becomes `failed` for that platform with the rejection's text. |
| Broadcast.DispatchAppend | src/app/api/broadcast/route.ts:80-93 | Each platform's result depends only on its own sender: dispatching two lists is dispatching each. |
| Broadcast.DispatchReportsEachPlatform | src/app/api/broadcast/route.ts:69-93 | With the real handlers, result `i` is about platform `i`. It is `skipped` exactly when that sender ran and found the platform unconfigured. |
| Broadcast.Post | src/app/api/broadcast/route.ts:23-62 | Unparsable JSON gives 400, and an invalid body gives 422 with every issue and the schema's messages. A valid body gives 200 with one result per requested platform, in request order. Result `i` is about platform `i`, and it is `skipped` exactly when that platform's sender ran and found it unconfigured. |
| Broadcast.Summary | src/app/api/broadcast/route.ts:9-19 | A platform's entry carries its id, and its label and configured flag agree with the handler table. |
| Broadcast.ListPlatforms | src/app/api/broadcast/route.ts:8-21 | One entry per platform in `PLATFORM_IDS` order, whose label and configured flag agree with the handler table. |
| Dashboard.PageDescriptors | src/app/page.tsx:5-13 | One descriptor per platform in key order, configured as its record says. |
| Dashboard.RemoveAll | src/components/dashboard/broadcast-dashboard.tsx:82 | The item is gone, every other item stays, and a list without the item is unchanged. |
| Dashboard.Toggle | src/components/dashboard/broadcast-dashboard.tsx:79-101 | An absent item is appended at the end. A present item is removed everywhere, with the other items kept in order. After a toggle the item is present exactly when it was absent, and every other item's presence is unchanged. |
| Dashboard.ToggleTwice | src/components/dashboard/broadcast-dashboard.tsx:80-84 | Toggling an absent item twice restores the list. |
| Dashboard.ToggleKeepsOthers | src/components/dashboard/broadcast-dashboard.tsx:80-84 | With the toggled item taken out, the list is as before, so the others keep their order. |
| Dashboard.ToggleKeepsDistinct | src/components/dashboard/broadcast-dashboard.tsx:80-84 | A toggle never introduces a duplicate. |
| Dashboard.Dedupe | src/components/dashboard/broadcast-dashboard.tsx:340-347 | The result has no duplicate and the same items as the input. |
| Dashboard.DedupeOfDistinct | src/components/dashboard/broadcast-dashboard.tsx:340-347 | A list without duplicates is unchanged. |
| Dashboard.DedupeAppendPrefix | src/components/dashboard/broadcast-dashboard.tsx:340-347 | Appending items keeps the earlier deduplicated list as a prefix. |
| Dashboard.MergeTags | src/components/dashboard/broadcast-dashboard.tsx:338-347 | With no entry the tags are unchanged. Otherwise the result has no duplicate and holds exactly the old tags and the prefixed entries. |
| Dashboard.MergeTagsAppend | src/components/dashboard/broadcast-dashboard.tsx:338-347 | With duplicate-free tags, merging one more entry appends its prefixed form unless the merge so far already holds it, so entries are added in order and each only once. |
| Dashboard.MergeCustomHashtags | src/components/dashboard/broadcast-dashboard.tsx:333-350 | When the field lists no entry the tags are unchanged. Otherwise the result has no duplicate and holds exactly the old tags and the prefixed entries. |
| Dashboard.MergeBlankInput | src/components/dashboard/broadcast-dashboard.tsx:334-338 | Input of blanks and commas only leaves the tags unchanged. |
| Dashboard.MergeKeepsPrevious | src/components/dashboard/broadcast-dashboard.tsx:339-347 | Duplicate-free tags stay first and in order; everything added starts with `#`. |
| Dashboard.DisableSend | src/components/dashboard/broadcast-dashboard.tsx:148-153 | Sending is disabled exactly when any of these holds: the message is all blank, the headline is all blank, no category is chosen, no platform is chosen, or a send is in flight. |
| Dashboard.InitialSelection | src/components/dashboard/broadcast-dashboard.tsx:67-69 | The initial selection holds exactly the ids of the configured descriptors. |
| Dashboard.ConfiguredCount | src/components/dashboard/broadcast-dashboard.tsx:74-77 | The count is the number of configured descriptors. So it is at most the number of descriptors, and 0 exactly when none is configured. |
| Dashboard.InitialSelectionAppend | src/components/dashboard/broadcast-dashboard.tsx:67-69 | Selecting from two runs of descriptors is selecting from each and concatenating. One descriptor contributes its id exactly when it is configured. Together these fix the selection as the configured ids in descriptor order. |
| Dashboard.InitialSelectionCount | src/components/dashboard/broadcast-dashboard.tsx:67-77 | The initial selection has as many entries as the configured count. |
| Dashboard.PageInitialSelection | src/components/dashboard/broadcast-dashboard.tsx:67-69 | On the page, the initial selection is exactly `listConfiguredIds()`. |
| Dashboard.InitialSelectionDistinct | src/components/dashboard/broadcast-dashboard.tsx:67-69 | Descriptors that name each platform once select each platform at most once. |
| Dashboard.DashboardState.constructor | src/components/dashboard/broadcast-dashboard.tsx:53-72 | The first render holds the default headline, message, categories, tone and hashtags, with the configured platforms selected, each once when the descriptors name each platform once, and no send in flight. |
| Dashboard.DashboardState.ToggleCategory | src/components/dashboard/broadcast-dashboard.tsx:79-85 | Only the categories change, by a toggle, and they stay duplicate-free and within `MESSAGE_CATEGORIES`. |
| Dashboard.DashboardState.TogglePlatform | src/components/dashboard/broadcast-dashboard.tsx:87-93 | Only the selected platforms change, by a toggle. A selection without duplicates stays without duplicates. |
| Dashboard.DashboardState.ToggleHashtag | src/components/dashboard/broadcast-dashboard.tsx:95-101 | Only the hashtags change, by a toggle, and they stay duplicate-free. |
| Dashboard.DashboardState.AddCustomHashtags | src/components/dashboard/broadcast-dashboard.tsx:333-350 | Only the hashtags change, by the merge. The old tags stay first, and the list stays duplicate-free. |
| Dashboard.DashboardState.SendDisabled | src/components/dashboard/broadcast-dashboard.tsx:148-153 | An enabled send button means at least one category and one platform are chosen and no send is in flight. |

## Left out

- **HTTP plumbing.** Next.js request and response objects and the reading of the request body are
  not modelled. A body is either text that is not JSON, with the parser's message, or a JSON object
  of the payload's shape. A JSON body whose fields have the wrong JSON types is not modelled.
- **Validator wording.** The issue layout produced by `error.flatten()` and the validator's stock
  messages are not modelled. The 422 response lists the issues in order, each with its kind and
  the message the schema sets for it, if any.
- **Network and SDK calls.** The Twilio client, `fetch` and the Twitter client are not modelled.
  Each call is represented by its outcome, supplied in request order: a value, or an error message.
  Reading a failed response's body is folded into that outcome. An error thrown by constructing
  the Twilio client is treated like a failed create call. For Twitter, an error thrown by
  `new TwitterApi(...)` is a separate input, and it takes precedence over the length check.
- **Timing.** The concurrency and timing of `Promise.all` and `Promise.allSettled` are not
  modelled. Results.AwaitAll: the contract promises the error of some rejected call, because
  `Promise.all` reports whichever rejects first in time. The function itself picks the lowest
  index.
- **Clock and randomness.** `new Date().toISOString()` is a parameter of the Arattai adapter.
  Choosing a prompt idea with `Math.random` is not modelled.
- **Metadata.** The metadata objects of results are opaque: the model keeps only the sids and the
  tweet id that the adapters attach.
- TwitterAdapter.Deliver: lengths are counted in Unicode scalar values, not UTF-16 code units as in
  the source, so a status with characters outside the Basic Multilingual Plane is measured shorter
  than the source measures it.
- Schema.Validate: the 5, 2 and 80 character limits are counted in Unicode scalar values rather
  than UTF-16 code units, as for the tweet length.
- Text.ToUpperAscii: upper-cases ASCII letters only. The tone values are ASCII, but an arbitrary
  tone string is not upper-cased as Unicode would do it.
- **Dashboard.** The following are not modelled:
  - rendering, styling and the category palette;
  - `handleBroadcast`, which is the browser's own call to the endpoint and its loading and error
    state;
  - the plain setters for headline, message and tone, which replace one field with the typed
    value.
- Broadcast.Post: the senders' settlements are a parameter. The precondition requires each
  fulfilled one to be what that platform's registered sender returns for the request's message and
  the header built from the request, so the header reaches the senders only through that
  precondition.
- **Environment snapshot.** The adapters read the environment once, when their module loads. The
  model passes one environment to every reader, so all readers see the same snapshot.
