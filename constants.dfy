/** The fixed vocabularies of the broadcaster: platforms, message categories, tones and suggested hashtags. */
module Constants {
  import opened Wrappers
  import opened Text

  /** The four platforms a broadcast can target. */
  datatype PlatformId = WhatsApp | Telegram | Arattai | Twitter

  /** The wire name of each platform. */
  function PlatformKey(id: PlatformId): string {
    match id
    case WhatsApp => "whatsapp"
    case Telegram => "telegram"
    case Arattai => "arattai"
    case Twitter => "twitter"
  }

  /** Reading a wire name back into a platform; anything else is not a platform. */
  function ParsePlatformId(s: string): (r: Option<PlatformId>)
    ensures r.Some? ==> PlatformKey(r.value) == s
  {
    if s == "whatsapp" then Some(WhatsApp)
    else if s == "telegram" then Some(Telegram)
    else if s == "arattai" then Some(Arattai)
    else if s == "twitter" then Some(Twitter)
    else None
  }

  lemma ParsePlatformKey(id: PlatformId)
    ensures ParsePlatformId(PlatformKey(id)) == Some(id)
  {
  }

  /** `PLATFORM_IDS`, in declaration order. */
  const PlatformIds: seq<PlatformId> := [WhatsApp, Telegram, Arattai, Twitter]

  /** The position of a platform in `PLATFORM_IDS`. */
  function PlatformIndex(id: PlatformId): (k: nat)
    ensures k < |PlatformIds| && PlatformIds[k] == id
  {
    match id
    case WhatsApp => 0
    case Telegram => 1
    case Arattai => 2
    case Twitter => 3
  }

  const MessageCategories: seq<string> := [
    "Quote",
    "One-Liner",
    "Affirmation",
    "Yoga Tip",
    "Fitness Tip",
    "Meditation Insight",
    "Mindfulness Reminder"
  ]

  const ToneOptions: seq<string> := [
    "Calming",
    "Motivational",
    "Playful",
    "Grounding",
    "Uplifting",
    "Reflective"
  ]

  const DefaultHashtags: seq<string> := [
    "#Mindfulness",
    "#Wellness",
    "#DailyAffirmation",
    "#YogaJourney",
    "#FitnessFlow",
    "#MeditationMoments"
  ]

  predicate Distinct<T(==)>(xs: seq<T>) {
    forall i, j :: 0 <= i < j < |xs| ==> xs[i] != xs[j]
  }

  /** `PLATFORM_IDS` lists every platform exactly once, under the four wire names in order. */
  lemma PlatformIdsEnumerate()
    ensures Distinct(PlatformIds)
    ensures forall id: PlatformId :: id in PlatformIds
    ensures seq(|PlatformIds|, i requires 0 <= i < |PlatformIds| => PlatformKey(PlatformIds[i]))
         == ["whatsapp", "telegram", "arattai", "twitter"]
  {
    forall id: PlatformId ensures id in PlatformIds {
      assert PlatformIds[PlatformIndex(id)] == id;
    }
  }

  lemma MessageCategoriesDistinct()
    ensures |MessageCategories| == 7 && Distinct(MessageCategories)
  {
  }

  lemma ToneOptionsDistinct()
    ensures |ToneOptions| == 6 && Distinct(ToneOptions)
  {
  }

  /** Every suggested hashtag already carries its `#`, so prefixing leaves it unchanged. */
  lemma DefaultHashtagsPrefixed()
    ensures forall i :: 0 <= i < |DefaultHashtags| ==> StartsWith(DefaultHashtags[i], "#")
    ensures TagWords(DefaultHashtags) == DefaultHashtags
  {
  }
}
