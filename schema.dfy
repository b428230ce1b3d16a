/**
 * `BroadcastPayloadSchema`: which request bodies the broadcast endpoint
 * accepts, the issues it reports for the others, and the typed request a
 * valid body becomes.
 */
module Schema {
  import opened Wrappers
  import opened Constants

  const MinMessageLength := 5
  const MinHeadlineLength := 2
  const MaxHeadlineLength := 80
  const MaxHashtags := 6

  /** A request body as it arrives: every field as plain strings, the optional ones as options. */
  datatype BroadcastPayload = BroadcastPayload(
    message: string,
    headline: Option<string>,
    categories: seq<string>,
    tone: Option<string>,
    hashtags: Option<seq<string>>,
    platforms: seq<string>)

  /** A body that passed the schema, with its platforms read as platform ids. */
  datatype BroadcastRequest = BroadcastRequest(
    message: string,
    headline: Option<string>,
    categories: seq<string>,
    tone: Option<string>,
    hashtags: Option<seq<string>>,
    platforms: seq<PlatformId>)

  /** The schema's rules, field by field. */
  predicate IsValid(p: BroadcastPayload) {
    && |p.message| >= MinMessageLength
    && (p.headline.Some? ==> MinHeadlineLength <= |p.headline.value| <= MaxHeadlineLength)
    && |p.categories| >= 1
    && (forall i :: 0 <= i < |p.categories| ==> p.categories[i] in MessageCategories)
    && (p.tone.Some? ==> p.tone.value in ToneOptions)
    && (p.hashtags.Some? ==> |p.hashtags.value| <= MaxHashtags)
    && |p.platforms| >= 1
    && (forall i :: 0 <= i < |p.platforms| ==> ParsePlatformId(p.platforms[i]).Some?)
  }

  /** One reason a body is refused; enum issues carry the position of the offending entry. */
  datatype Issue =
    | MessageTooShort
    | HeadlineTooShort
    | HeadlineTooLong
    | NoCategories
    | UnknownCategory(index: nat)
    | UnknownTone
    | TooManyHashtags
    | NoPlatforms
    | UnknownPlatform(index: nat)

  /** The messages the schema sets itself; the other issues use the validator's stock wording. */
  function CustomMessage(issue: Issue): (r: Option<string>)
    ensures r.Some? <==>
      issue.MessageTooShort? || issue.HeadlineTooShort? || issue.HeadlineTooLong? || issue.NoCategories? || issue.NoPlatforms?
    ensures r.Some? ==> |r.value| > 0
  {
    match issue
    case MessageTooShort => Some("Please craft a message with at least 5 characters.")
    case HeadlineTooShort => Some("Headline should be at least 2 characters.")
    case HeadlineTooLong => Some("Headline should be short and punchy.")
    case NoCategories => Some("Select at least one focus category.")
    case NoPlatforms => Some("Select at least one platform to broadcast.")
    case _ => None
  }

  /** The wire names of `PLATFORM_IDS`, the values `z.enum(PLATFORM_IDS)` accepts. */
  const PlatformKeys: seq<string> := seq(|PlatformIds|, i requires 0 <= i < |PlatformIds| => PlatformKey(PlatformIds[i]))

  lemma PlatformKeysParse(s: string)
    ensures ParsePlatformId(s).Some? <==> s in PlatformKeys
  {
    assert PlatformKeys == ["whatsapp", "telegram", "arattai", "twitter"];
  }

  /** The positions, in increasing order, of the entries of `xs` that are not among `allowed`. */
  function UnknownIndices(xs: seq<string>, allowed: seq<string>): (r: seq<nat>)
    ensures forall k :: 0 <= k < |r| ==> r[k] < |xs| && xs[r[k]] !in allowed
    ensures forall i :: 0 <= i < |xs| && xs[i] !in allowed ==> i in r
    ensures forall k, l :: 0 <= k < l < |r| ==> r[k] < r[l]
    ensures r == [] <==> forall i :: 0 <= i < |xs| ==> xs[i] in allowed
  {
    if xs == [] then []
    else
      var front := UnknownIndices(xs[..|xs| - 1], allowed);
      assert forall i :: 0 <= i < |xs| - 1 ==> xs[..|xs| - 1][i] == xs[i];
      if xs[|xs| - 1] in allowed then front else front + [|xs| - 1]
  }

  function MessageIssues(message: string): (r: seq<Issue>)
    ensures r == [] <==> |message| >= MinMessageLength
    ensures forall x :: x in r <==> x == MessageTooShort && |message| < MinMessageLength
  {
    if |message| < MinMessageLength then [MessageTooShort] else []
  }

  function HeadlineIssues(headline: Option<string>): (r: seq<Issue>)
    ensures r == [] <==> (headline.Some? ==> MinHeadlineLength <= |headline.value| <= MaxHeadlineLength)
    ensures forall x :: x in r <==>
      || (x == HeadlineTooShort && headline.Some? && |headline.value| < MinHeadlineLength)
      || (x == HeadlineTooLong && headline.Some? && |headline.value| > MaxHeadlineLength)
  {
    if headline.None? then []
    else if |headline.value| < MinHeadlineLength then [HeadlineTooShort]
    else if |headline.value| > MaxHeadlineLength then [HeadlineTooLong]
    else []
  }

  function CategoryIssues(categories: seq<string>): (r: seq<Issue>)
    ensures r == [] <==> |categories| >= 1 && forall i :: 0 <= i < |categories| ==> categories[i] in MessageCategories
    ensures forall x :: x in r <==>
      || (x == NoCategories && |categories| == 0)
      || (x.UnknownCategory? && x.index < |categories| && categories[x.index] !in MessageCategories)
  {
    var bad := UnknownIndices(categories, MessageCategories);
    var issues := seq(|bad|, k requires 0 <= k < |bad| => UnknownCategory(bad[k]));
    assert forall k :: 0 <= k < |bad| ==> issues[k] == UnknownCategory(bad[k]);
    assert forall x :: x in issues <==> x.UnknownCategory? && x.index in bad by {
      forall x ensures x in issues <==> x.UnknownCategory? && x.index in bad {
        if x.UnknownCategory? && x.index in bad {
          var k :| 0 <= k < |bad| && bad[k] == x.index;
          assert issues[k] == x;
        }
      }
    }
    (if |categories| == 0 then [NoCategories] else [])
    + issues
  }

  function ToneIssues(tone: Option<string>): (r: seq<Issue>)
    ensures r == [] <==> (tone.Some? ==> tone.value in ToneOptions)
    ensures forall x :: x in r <==> x == UnknownTone && tone.Some? && tone.value !in ToneOptions
  {
    if tone.Some? && tone.value !in ToneOptions then [UnknownTone] else []
  }

  function HashtagIssues(hashtags: Option<seq<string>>): (r: seq<Issue>)
    ensures r == [] <==> (hashtags.Some? ==> |hashtags.value| <= MaxHashtags)
    ensures forall x :: x in r <==> x == TooManyHashtags && hashtags.Some? && |hashtags.value| > MaxHashtags
  {
    if hashtags.Some? && |hashtags.value| > MaxHashtags then [TooManyHashtags] else []
  }

  function PlatformIssues(platforms: seq<string>): (r: seq<Issue>)
    ensures r == [] <==> |platforms| >= 1 && forall i :: 0 <= i < |platforms| ==> ParsePlatformId(platforms[i]).Some?
    ensures forall x :: x in r <==>
      || (x == NoPlatforms && |platforms| == 0)
      || (x.UnknownPlatform? && x.index < |platforms| && ParsePlatformId(platforms[x.index]).None?)
  {
    var bad := UnknownIndices(platforms, PlatformKeys);
    var issues := seq(|bad|, k requires 0 <= k < |bad| => UnknownPlatform(bad[k]));
    assert forall k :: 0 <= k < |bad| ==> issues[k] == UnknownPlatform(bad[k]);
    assert forall x :: x in issues <==> x.UnknownPlatform? && x.index in bad by {
      forall x ensures x in issues <==> x.UnknownPlatform? && x.index in bad {
        if x.UnknownPlatform? && x.index in bad {
          var k :| 0 <= k < |bad| && bad[k] == x.index;
          assert issues[k] == x;
        }
      }
    }
    forall i | 0 <= i < |platforms|
      ensures ParsePlatformId(platforms[i]).Some? <==> platforms[i] in PlatformKeys
    {
      PlatformKeysParse(platforms[i]);
    }
    (if |platforms| == 0 then [NoPlatforms] else [])
    + issues
  }

  /** Whether `issue` describes something wrong with `p`. */
  predicate Applies(p: BroadcastPayload, issue: Issue) {
    match issue
    case MessageTooShort => |p.message| < MinMessageLength
    case HeadlineTooShort => p.headline.Some? && |p.headline.value| < MinHeadlineLength
    case HeadlineTooLong => p.headline.Some? && |p.headline.value| > MaxHeadlineLength
    case NoCategories => |p.categories| == 0
    case UnknownCategory(i) => i < |p.categories| && p.categories[i] !in MessageCategories
    case UnknownTone => p.tone.Some? && p.tone.value !in ToneOptions
    case TooManyHashtags => p.hashtags.Some? && |p.hashtags.value| > MaxHashtags
    case NoPlatforms => |p.platforms| == 0
    case UnknownPlatform(i) => i < |p.platforms| && ParsePlatformId(p.platforms[i]).None?
  }

  /** Every issue the schema finds in a body, field by field (no field's check stops the others). */
  function Validate(p: BroadcastPayload): (r: seq<Issue>)
    ensures r == [] <==> IsValid(p)
  {
    MessageIssues(p.message) + HeadlineIssues(p.headline) + CategoryIssues(p.categories)
    + ToneIssues(p.tone) + HashtagIssues(p.hashtags) + PlatformIssues(p.platforms)
  }

  /** The issues reported are exactly the ones that apply. */
  lemma ValidateReportsExactly(p: BroadcastPayload, issue: Issue)
    ensures issue in Validate(p) <==> Applies(p, issue)
  {
    var m, h, c := MessageIssues(p.message), HeadlineIssues(p.headline), CategoryIssues(p.categories);
    var t, g, f := ToneIssues(p.tone), HashtagIssues(p.hashtags), PlatformIssues(p.platforms);
    assert Validate(p) == m + h + c + t + g + f;
    assert issue in Validate(p) <==> issue in m || issue in h || issue in c || issue in t || issue in g || issue in f;
  }

  /** An issue as a refusal reports it: its kind and the message the schema set for it, if any. */
  datatype ReportedIssue = ReportedIssue(issue: Issue, message: Option<string>)

  /** The issues of a refused body, each with the schema's own message attached. */
  function ReportIssues(issues: seq<Issue>): (r: seq<ReportedIssue>)
    ensures |r| == |issues|
    ensures forall i :: 0 <= i < |r| ==> r[i].issue == issues[i] && r[i].message == CustomMessage(issues[i])
  {
    seq(|issues|, i requires 0 <= i < |issues| => ReportedIssue(issues[i], CustomMessage(issues[i])))
  }

  /** Every issue that applies is reported, carrying the schema's message whenever the schema sets one. */
  lemma ReportedWithMessage(p: BroadcastPayload, issue: Issue)
    requires Applies(p, issue)
    ensures exists i :: 0 <= i < |ReportIssues(Validate(p))| && ReportIssues(Validate(p))[i] == ReportedIssue(issue, CustomMessage(issue))
  {
    ValidateReportsExactly(p, issue);
    var i :| 0 <= i < |Validate(p)| && Validate(p)[i] == issue;
    assert ReportIssues(Validate(p))[i] == ReportedIssue(issue, CustomMessage(issue));
  }

  /** A body is valid exactly when no issue applies to it. */
  lemma ValidIffNothingApplies(p: BroadcastPayload)
    ensures IsValid(p) <==> forall issue :: !Applies(p, issue)
  {
    if IsValid(p) {
      forall issue ensures !Applies(p, issue) {
        ValidateReportsExactly(p, issue);
      }
    } else {
      ValidateReportsExactly(p, Validate(p)[0]);
    }
  }

  /** Reading every wire name as a platform; fails if any entry is not one. */
  function ParsePlatforms(keys: seq<string>): (r: Option<seq<PlatformId>>)
    ensures r.Some? <==> forall i :: 0 <= i < |keys| ==> ParsePlatformId(keys[i]).Some?
    ensures r.Some? ==> |r.value| == |keys| && forall i :: 0 <= i < |keys| ==> PlatformKey(r.value[i]) == keys[i]
  {
    if keys == [] then Some([])
    else
      var head := ParsePlatformId(keys[0]);
      var rest := ParsePlatforms(keys[1..]);
      assert forall i :: 1 <= i < |keys| ==> keys[i] == keys[1..][i - 1];
      if head.None? || rest.None? then None
      else Some([head.value] + rest.value)
  }

  /** The body a request came from: its platforms written back as wire names. */
  function ToPayload(req: BroadcastRequest): (p: BroadcastPayload)
    ensures |p.platforms| == |req.platforms|
    ensures forall i :: 0 <= i < |req.platforms| ==> ParsePlatformId(p.platforms[i]) == Some(req.platforms[i])
  {
    var keys := seq(|req.platforms|, i requires 0 <= i < |req.platforms| => PlatformKey(req.platforms[i]));
    forall i | 0 <= i < |req.platforms| ensures ParsePlatformId(keys[i]) == Some(req.platforms[i]) {
      ParsePlatformKey(req.platforms[i]);
    }
    BroadcastPayload(req.message, req.headline, req.categories, req.tone, req.hashtags, keys)
  }

  datatype ParseResult = Success(request: BroadcastRequest) | Failure(issues: seq<Issue>)

  /** `BroadcastPayloadSchema.safeParse`: the typed request for a valid body, else every issue found. */
  function SafeParse(p: BroadcastPayload): (r: ParseResult)
    ensures r.Success? <==> IsValid(p)
    ensures r.Failure? ==> r.issues == Validate(p) && |r.issues| > 0
    ensures r.Success? ==> ToPayload(r.request) == p
  {
    if !IsValid(p) then Failure(Validate(p))
    else
      var platforms := ParsePlatforms(p.platforms).value;
      var req := BroadcastRequest(p.message, p.headline, p.categories, p.tone, p.hashtags, platforms);
      var back := ToPayload(req).platforms;
      assert forall i :: 0 <= i < |back| ==> back[i] == p.platforms[i] by {
        forall i | 0 <= i < |back| ensures back[i] == p.platforms[i] {
          assert ParsePlatformId(back[i]) == Some(platforms[i]);
        }
      }
      assert back == p.platforms;
      Success(req)
  }

  /** Writing a request out and parsing it back gives the same request, whenever the body is valid. */
  lemma {:induction false} ParseToPayload(req: BroadcastRequest)
    requires IsValid(ToPayload(req))
    ensures SafeParse(ToPayload(req)) == Success(req)
  {
    var p := ToPayload(req);
    var got := SafeParse(p).request;
    assert |got.platforms| == |req.platforms|;
    forall i | 0 <= i < |req.platforms| ensures got.platforms[i] == req.platforms[i] {
      ParsePlatformKey(got.platforms[i]);
    }
  }

  /** Every accepted request targets at least one platform and carries a message of at least five characters. */
  lemma AcceptedRequestShape(p: BroadcastPayload)
    requires SafeParse(p).Success?
    ensures |SafeParse(p).request.platforms| >= 1
    ensures |SafeParse(p).request.message| >= MinMessageLength
    ensures |SafeParse(p).request.categories| >= 1
  {
  }
}
