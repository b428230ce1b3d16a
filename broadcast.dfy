/**
 * The broadcast endpoint: the header composed from a request's headline,
 * tone, categories and hashtags; the fan-out of one message to the chosen
 * platforms, where every platform gets its own result whatever the others
 * do; the POST and GET handlers around them.
 */
module Broadcast {
  import opened Wrappers
  import opened Text
  import opened Constants
  import opened Results
  import opened Env
  import opened Schema
  import opened Registry

  // ---------------------------------------------------------------------------
  // buildHeader

  /**
   * The separator placed between categories. The source file holds the
   * bullet "•" as its UTF-8 bytes read back as Windows-1252, which gives the
   * three characters U+00E2 U+20AC U+00A2; the model keeps those.
   */
  const CategorySeparator := " \U{00E2}\U{20AC}\U{00A2} "
  const DescriptorSeparator := " | "
  const HashtagSeparator := " "
  const SegmentSeparator := "\n"

  /** The descriptors that survive `filter(Boolean)`: the upper-cased tone if truthy, then the joined categories if any and non-empty. */
  function Descriptors(categories: seq<string>, tone: Option<string>): seq<string> {
    var joined := Join(categories, CategorySeparator);
    (if IsTruthy(tone) then [ToUpperAscii(tone.value)] else [])
    + (if |categories| > 0 && joined != "" then [joined] else [])
  }

  function HeadlineSegment(headline: Option<string>): seq<string> {
    if IsTruthy(headline) then [Trim(headline.value)] else []
  }

  function DescriptorSegment(categories: seq<string>, tone: Option<string>): seq<string> {
    var descriptors := Descriptors(categories, tone);
    if |descriptors| > 0 then [Join(descriptors, DescriptorSeparator)] else []
  }

  function HashtagSegment(hashtags: Option<seq<string>>): seq<string> {
    if hashtags.Some? && |hashtags.value| > 0 then [Join(TagWords(hashtags.value), HashtagSeparator)] else []
  }

  /** The segments of the header, in order: trimmed headline, descriptor line, hashtag line, each only when present. */
  function HeaderSegments(headline: Option<string>, categories: seq<string>, tone: Option<string>, hashtags: Option<seq<string>>): seq<string> {
    HeadlineSegment(headline) + DescriptorSegment(categories, tone) + HashtagSegment(hashtags)
  }

  /**
   * The header `buildHeader` returns: the segments joined by newlines, or
   * nothing at all when there is no headline, no tone, no hashtag and the
   * categories are empty or the single empty string.
   */
  function ComposeHeader(headline: Option<string>, categories: seq<string>, tone: Option<string>, hashtags: Option<seq<string>>): (r: Option<string>)
    ensures r.None? <==>
      && !IsTruthy(headline)
      && !IsTruthy(tone)
      && (categories == [] || categories == [""])
      && (hashtags.None? || hashtags.value == [])
  {
    JoinIsEmpty(categories, CategorySeparator);
    var segments := HeaderSegments(headline, categories, tone, hashtags);
    if |segments| > 0 then Some(Join(segments, SegmentSeparator)) else None
  }

  /**
   * The descriptor line in its four cases: tone and categories joined by
   * " | ", the tone alone, the categories alone, or no line at all.
   */
  lemma DescriptorLine(categories: seq<string>, tone: Option<string>)
    ensures var joined := Join(categories, CategorySeparator);
      var line := DescriptorSegment(categories, tone);
      && (IsTruthy(tone) && joined != "" ==> line == [ToUpperAscii(tone.value) + DescriptorSeparator + joined])
      && (IsTruthy(tone) && joined == "" ==> line == [ToUpperAscii(tone.value)])
      && (!IsTruthy(tone) && joined != "" ==> line == [joined])
      && (!IsTruthy(tone) && joined == "" ==> line == [])
  {
    var joined := Join(categories, CategorySeparator);
    var descriptors := Descriptors(categories, tone);
    if IsTruthy(tone) && joined != "" {
      assert |categories| > 0;
      assert descriptors == [ToUpperAscii(tone.value), joined];
      assert descriptors[1..] == [joined];
      assert Join(descriptors, DescriptorSeparator) == ToUpperAscii(tone.value) + DescriptorSeparator + joined;
    }
  }

  /** The header is the segments joined by newlines, or nothing when there is no segment. */
  lemma ComposeOfSegments(headline: Option<string>, categories: seq<string>, tone: Option<string>, hashtags: Option<seq<string>>)
    ensures var segments := HeaderSegments(headline, categories, tone, hashtags);
      ComposeHeader(headline, categories, tone, hashtags) == if |segments| > 0 then Some(Join(segments, SegmentSeparator)) else None
  {
  }

  /** A join with a non-empty separator is empty only for no pieces or one empty piece. */
  lemma {:induction false} JoinIsEmpty(xs: seq<string>, sep: string)
    requires sep != ""
    ensures Join(xs, sep) == "" <==> xs == [] || xs == [""]
  {
    if |xs| > 1 {
      assert |Join(xs, sep)| >= |sep|;
    }
  }

  /** `hashtags.map(tag => tag.startsWith("#") ? tag : `#${tag}`)`, one tag at a time. */
  method PrefixHashtags(tags: seq<string>) returns (words: seq<string>)
    ensures words == TagWords(tags)
  {
    words := [];
    var i := 0;
    while i < |tags|
      invariant 0 <= i <= |tags|
      invariant words == TagWords(tags[..i])
    {
      var word := if StartsWith(tags[i], "#") then tags[i] else "#" + tags[i];
      words := words + [word];
      i := i + 1;
    }
    assert tags[..i] == tags;
  }

  /** The `descriptors` array of `buildHeader`, built and filtered entry by entry. */
  method CollectDescriptors(categories: seq<string>, tone: Option<string>) returns (descriptors: seq<string>)
    ensures descriptors == Descriptors(categories, tone)
  {
    descriptors := [];
    if IsTruthy(tone) {
      descriptors := descriptors + [ToUpperAscii(tone.value)];
    }
    if |categories| > 0 {
      var joined := Join(categories, CategorySeparator);
      if joined != "" {
        descriptors := descriptors + [joined];
      }
    }
  }

  /** `buildHeader`: collects the segments by pushing them onto a list, then joins them. */
  method BuildHeader(headline: Option<string>, categories: seq<string>, tone: Option<string>, hashtags: Option<seq<string>>)
    returns (header: Option<string>)
    ensures header == ComposeHeader(headline, categories, tone, hashtags)
  {
    var segments: seq<string> := [];
    if IsTruthy(headline) {
      segments := segments + [Trim(headline.value)];
    }
    assert segments == HeadlineSegment(headline);
    var descriptors := CollectDescriptors(categories, tone);
    if |descriptors| > 0 {
      segments := segments + [Join(descriptors, DescriptorSeparator)];
    }
    assert segments == HeadlineSegment(headline) + DescriptorSegment(categories, tone);
    if hashtags.Some? && |hashtags.value| > 0 {
      var words := PrefixHashtags(hashtags.value);
      segments := segments + [Join(words, HashtagSeparator)];
    }
    assert segments == HeaderSegments(headline, categories, tone, hashtags);
    ComposeOfSegments(headline, categories, tone, hashtags);
    if |segments| > 0 {
      header := Some(Join(segments, SegmentSeparator));
    } else {
      header := None;
    }
  }

  lemma DescriptorSegmentAvoidsNewline(categories: seq<string>, tone: Option<string>)
    requires tone.Some? ==> '\n' !in tone.value
    requires forall i :: 0 <= i < |categories| ==> '\n' !in categories[i]
    ensures forall k :: 0 <= k < |DescriptorSegment(categories, tone)| ==> '\n' !in DescriptorSegment(categories, tone)[k]
  {
    JoinAvoids(categories, CategorySeparator, '\n');
    var descriptors := Descriptors(categories, tone);
    if IsTruthy(tone) {
      assert forall c :: c in ToUpperAscii(tone.value) ==> c != '\n';
    }
    assert forall i :: 0 <= i < |descriptors| ==> '\n' !in descriptors[i];
    JoinAvoids(descriptors, DescriptorSeparator, '\n');
  }

  lemma HashtagSegmentAvoidsNewline(hashtags: Option<seq<string>>)
    requires hashtags.Some? ==> forall i :: 0 <= i < |hashtags.value| ==> '\n' !in hashtags.value[i]
    ensures forall k :: 0 <= k < |HashtagSegment(hashtags)| ==> '\n' !in HashtagSegment(hashtags)[k]
  {
    if hashtags.Some? {
      var words := TagWords(hashtags.value);
      assert forall i :: 0 <= i < |words| ==> '\n' !in words[i] by {
        forall i | 0 <= i < |words| ensures '\n' !in words[i] {
          assert words[i] == hashtags.value[i] || words[i] == "#" + hashtags.value[i];
        }
      }
      JoinAvoids(words, HashtagSeparator, '\n');
    }
  }

  /** Every segment avoids the newline when the inputs do. */
  lemma SegmentsAvoidNewline(headline: Option<string>, categories: seq<string>, tone: Option<string>, hashtags: Option<seq<string>>)
    requires headline.Some? ==> '\n' !in headline.value
    requires tone.Some? ==> '\n' !in tone.value
    requires forall i :: 0 <= i < |categories| ==> '\n' !in categories[i]
    requires hashtags.Some? ==> forall i :: 0 <= i < |hashtags.value| ==> '\n' !in hashtags.value[i]
    ensures forall k :: 0 <= k < |HeaderSegments(headline, categories, tone, hashtags)| ==>
      '\n' !in HeaderSegments(headline, categories, tone, hashtags)[k]
  {
    DescriptorSegmentAvoidsNewline(categories, tone);
    HashtagSegmentAvoidsNewline(hashtags);
    var h := HeadlineSegment(headline);
    if IsTruthy(headline) {
      assert h[0] == Trim(headline.value);
    }
    ConcatAvoids(h, DescriptorSegment(categories, tone), '\n');
    ConcatAvoids(h + DescriptorSegment(categories, tone), HashtagSegment(hashtags), '\n');
  }

  lemma ConcatAvoids(xs: seq<string>, ys: seq<string>, c: char)
    requires forall k :: 0 <= k < |xs| ==> c !in xs[k]
    requires forall k :: 0 <= k < |ys| ==> c !in ys[k]
    ensures forall k :: 0 <= k < |xs + ys| ==> c !in (xs + ys)[k]
  {
    forall k | 0 <= k < |xs + ys| ensures c !in (xs + ys)[k] {
      if k >= |xs| {
        assert (xs + ys)[k] == ys[k - |xs|];
      }
    }
  }

  /**
   * When no input contains a newline, splitting the header at newlines gives
   * back exactly its segments: one line for the headline, one for the
   * descriptors and one for the hashtags, each present or absent as above.
   */
  lemma HeaderLines(headline: Option<string>, categories: seq<string>, tone: Option<string>, hashtags: Option<seq<string>>)
    requires headline.Some? ==> '\n' !in headline.value
    requires tone.Some? ==> '\n' !in tone.value
    requires forall i :: 0 <= i < |categories| ==> '\n' !in categories[i]
    requires hashtags.Some? ==> forall i :: 0 <= i < |hashtags.value| ==> '\n' !in hashtags.value[i]
    ensures var header := ComposeHeader(headline, categories, tone, hashtags);
      header.Some? ==> Split(header.value, '\n') == HeaderSegments(headline, categories, tone, hashtags)
  {
    SegmentsAvoidNewline(headline, categories, tone, hashtags);
    var segments := HeaderSegments(headline, categories, tone, hashtags);
    if |segments| > 0 {
      SplitJoin(segments, '\n');
    }
  }

  /** The hashtag line splits at spaces into the tags, each now starting with `#`, when no tag holds a space. */
  lemma HashtagLineWords(tags: seq<string>)
    requires |tags| > 0
    requires forall i :: 0 <= i < |tags| ==> ' ' !in tags[i]
    ensures var words := Split(Join(TagWords(tags), HashtagSeparator), ' ');
      && |words| == |tags|
      && forall i :: 0 <= i < |tags| ==> StartsWith(words[i], "#") && (words[i] == tags[i] || words[i] == "#" + tags[i])
  {
    var words := TagWords(tags);
    assert forall i :: 0 <= i < |words| ==> ' ' !in words[i] by {
      forall i | 0 <= i < |words| ensures ' ' !in words[i] {
        assert words[i] == tags[i] || words[i] == "#" + tags[i];
      }
    }
    SplitJoin(words, ' ');
  }

  /** Prefixing is done once: tags that already start with `#` print the same line as before. */
  lemma HashtagLineIdempotent(tags: seq<string>)
    ensures TagWords(TagWords(tags)) == TagWords(tags)
  {
    forall i | 0 <= i < |tags| ensures TagWords(TagWords(tags))[i] == TagWords(tags)[i] {
      EnsurePrefixIdempotent(tags[i], "#");
    }
  }

  /** A headline of whitespace only still opens the header, as an empty first line. */
  lemma BlankHeadlineLine(headline: string, categories: seq<string>, tone: Option<string>, hashtags: Option<seq<string>>)
    requires headline != "" && forall i :: 0 <= i < |headline| ==> IsWhitespace(headline[i])
    ensures HeaderSegments(Some(headline), categories, tone, hashtags)[0] == ""
    ensures ComposeHeader(Some(headline), [], None, None) == Some("")
  {
  }

  /** A request the schema accepts always gets a header, whose descriptor line carries its categories. */
  lemma AcceptedRequestHasHeader(p: BroadcastPayload)
    requires SafeParse(p).Success?
    ensures var req := SafeParse(p).request;
      && ComposeHeader(req.headline, req.categories, req.tone, req.hashtags).Some?
      && Join(req.categories, CategorySeparator) in Descriptors(req.categories, req.tone)
  {
    var req := SafeParse(p).request;
    assert req.categories[0] in MessageCategories;
    assert req.categories != [""];
    JoinIsEmpty(req.categories, CategorySeparator);
  }

  // ---------------------------------------------------------------------------
  // dispatchToPlatforms

  /** Why a sender's promise was rejected: an `Error`, or some other value already turned into text. */
  datatype Reason = ErrorReason(message: string) | OtherReason(text: string)

  /** `reason instanceof Error ? reason.message : String(reason)`. */
  function ReasonDetail(reason: Reason): string {
    match reason
    case ErrorReason(m) => m
    case OtherReason(t) => t
  }

  /** How one sender's promise settled. */
  datatype Settled = Fulfilled(value: PlatformResult) | Rejected(reason: Reason)

  const NoHandlerDetail := "No handler registered for this platform."

  /**
   * `dispatchToPlatforms(platforms, message, header)`, given how the sender
   * called for each entry settled (the entry is not consulted for a platform
   * without a handler, which settles by itself).
   */
  function Dispatch(handlers: map<PlatformId, Handler>, platforms: seq<PlatformId>, settled: seq<Settled>): (r: seq<PlatformResult>)
    requires |settled| == |platforms|
    ensures |r| == |platforms|
    ensures forall i :: 0 <= i < |platforms| && platforms[i] !in handlers ==>
      r[i] == Report(platforms[i], Skipped, NoHandlerDetail)
    ensures forall i :: 0 <= i < |platforms| && platforms[i] in handlers && settled[i].Fulfilled? ==>
      r[i] == settled[i].value
    ensures forall i :: 0 <= i < |platforms| && platforms[i] in handlers && settled[i].Rejected? ==>
      r[i] == Report(platforms[i], Failed, ReasonDetail(settled[i].reason))
  {
    seq(|platforms|, i requires 0 <= i < |platforms| =>
      if platforms[i] !in handlers then Report(platforms[i], Skipped, NoHandlerDetail)
      else match settled[i]
        case Fulfilled(v) => v
        case Rejected(reason) => Report(platforms[i], Failed, ReasonDetail(reason))
    )
  }

  /** Each platform's result depends on its own sender only: dispatching two lists is dispatching each. */
  lemma DispatchAppend(handlers: map<PlatformId, Handler>, p1: seq<PlatformId>, s1: seq<Settled>, p2: seq<PlatformId>, s2: seq<Settled>)
    requires |s1| == |p1| && |s2| == |p2|
    ensures Dispatch(handlers, p1 + p2, s1 + s2) == Dispatch(handlers, p1, s1) + Dispatch(handlers, p2, s2)
  {
    var r := Dispatch(handlers, p1 + p2, s1 + s2);
    var q := Dispatch(handlers, p1, s1) + Dispatch(handlers, p2, s2);
    forall i | 0 <= i < |r| ensures r[i] == q[i] {
      if i < |p1| {
        assert (p1 + p2)[i] == p1[i] && (s1 + s2)[i] == s1[i];
      } else {
        assert (p1 + p2)[i] == p2[i - |p1|] && (s1 + s2)[i] == s2[i - |p1|];
      }
    }
  }

  /** The settlements that calling the registry's senders can produce: an adapter's own result, or a rejection. */
  ghost predicate FromRegistry(env: Environment, platforms: seq<PlatformId>, message: string, header: Option<string>, settled: seq<Settled>)
    requires |settled| == |platforms|
  {
    forall i :: 0 <= i < |platforms| && settled[i].Fulfilled? ==>
      exists io :: IoFits(env, PlatformHandlers(env)[platforms[i]].sender, message, header, io)
        && settled[i].value == RunSender(env, PlatformHandlers(env)[platforms[i]].sender, message, header, io)
  }

  /**
   * With the registry's handlers, result `i` is about platform `i`, and it
   * is `skipped` exactly when that platform's sender ran and found the
   * platform unconfigured; a duplicated platform is sent to twice.
   */
  lemma DispatchReportsEachPlatform(env: Environment, platforms: seq<PlatformId>, message: string, header: Option<string>, settled: seq<Settled>)
    requires |settled| == |platforms|
    requires FromRegistry(env, platforms, message, header, settled)
    ensures var r := Dispatch(PlatformHandlers(env), platforms, settled);
      forall i :: 0 <= i < |platforms| ==>
        && r[i].platform == platforms[i]
        && (r[i].status == Skipped <==> settled[i].Fulfilled? && !PlatformHandlers(env)[platforms[i]].isConfigured)
  {
    var handlers := PlatformHandlers(env);
    var r := Dispatch(handlers, platforms, settled);
    forall i | 0 <= i < |platforms|
      ensures r[i].platform == platforms[i]
      ensures r[i].status == Skipped <==> settled[i].Fulfilled? && !handlers[platforms[i]].isConfigured
    {
      if settled[i].Fulfilled? {
        var io :| IoFits(env, handlers[platforms[i]].sender, message, header, io)
          && settled[i].value == RunSender(env, handlers[platforms[i]].sender, message, header, io);
        HandlerReportsOwnPlatform(env, platforms[i], message, header, io);
        HandlerSkipsIffUnconfigured(env, platforms[i], message, header, io);
      }
    }
  }

  // ---------------------------------------------------------------------------
  // POST and GET

  /** The request body: text that is not JSON (with the parser's message), or a JSON body. */
  datatype RequestBody = Unparsable(error: string) | Json(payload: BroadcastPayload)

  datatype Response =
    | InvalidJson(detail: string)
    | ValidationFailed(issues: seq<ReportedIssue>)
    | Broadcasted(results: seq<PlatformResult>)

  function StatusCode(response: Response): nat {
    match response
    case InvalidJson(_) => 400
    case ValidationFailed(_) => 422
    case Broadcasted(_) => 200
  }

  /**
   * What the fan-out of a valid body can settle to: one entry per requested
   * platform, each fulfilled one being what that platform's registered sender
   * returns for the request's message and the header built from the request.
   */
  ghost predicate SettlementsFit(env: Environment, body: RequestBody, settled: seq<Settled>) {
    body.Json? && SafeParse(body.payload).Success? ==>
      var req := SafeParse(body.payload).request;
      && |settled| == |req.platforms|
      && FromRegistry(env, req.platforms, req.message, ComposeHeader(req.headline, req.categories, req.tone, req.hashtags), settled)
  }

  /**
   * `POST`: 400 for a body that is not JSON, 422 with the issues and the
   * schema's messages for an invalid one, else one result per requested
   * platform, in request order, `skipped` exactly when that platform's sender
   * found it unconfigured.
   */
  method Post(env: Environment, body: RequestBody, settled: seq<Settled>) returns (response: Response)
    requires SettlementsFit(env, body, settled)
    ensures body.Unparsable? ==> response == InvalidJson(body.error) && StatusCode(response) == 400
    ensures body.Json? && SafeParse(body.payload).Failure? ==>
      && response == ValidationFailed(ReportIssues(Validate(body.payload)))
      && StatusCode(response) == 422
      && |response.issues| > 0
    ensures body.Json? && SafeParse(body.payload).Success? ==>
      var platforms := SafeParse(body.payload).request.platforms;
      && response == Broadcasted(Dispatch(PlatformHandlers(env), platforms, settled))
      && StatusCode(response) == 200
      && |response.results| == |platforms|
      && forall i :: 0 <= i < |platforms| ==>
        && response.results[i].platform == platforms[i]
        && (response.results[i].status == Skipped
            <==> settled[i].Fulfilled? && !PlatformHandlers(env)[platforms[i]].isConfigured)
  {
    if body.Unparsable? {
      return InvalidJson(body.error);
    }
    var parsed := SafeParse(body.payload);
    if parsed.Failure? {
      return ValidationFailed(ReportIssues(parsed.issues));
    }
    var req := parsed.request;
    var header := BuildHeader(req.headline, req.categories, req.tone, req.hashtags);
    DispatchReportsEachPlatform(env, req.platforms, req.message, header, settled);
    var results := Dispatch(PlatformHandlers(env), req.platforms, settled);
    response := Broadcasted(results);
  }

  /** One entry of the `GET` response. */
  datatype PlatformSummary = PlatformSummary(
    id: PlatformId,
    displayLabel: string,
    description: string,
    documentationUrl: string,
    isConfigured: bool)

  /** One platform's entry of the `GET` response, read from its configuration record. */
  function Summary(env: Environment, id: PlatformId): (r: PlatformSummary)
    ensures r.id == id
    ensures r.isConfigured == PlatformHandlers(env)[id].isConfigured
    ensures r.displayLabel == PlatformHandlers(env)[id].displayLabel
  {
    var config := GetPlatformConfig(env, id);
    HandlersMirrorConfigs(env, id);
    PlatformSummary(id, config.displayLabel, config.description, config.documentationUrl, config.isConfigured)
  }

  /** `GET`: every platform in `PLATFORM_IDS` order, with its label, texts and configured flag. */
  function ListPlatforms(env: Environment): (r: seq<PlatformSummary>)
    ensures |r| == |PlatformIds|
    ensures forall i :: 0 <= i < |r| ==>
      && r[i].id == PlatformIds[i]
      && r[i].isConfigured == PlatformHandlers(env)[PlatformIds[i]].isConfigured
      && r[i].displayLabel == PlatformHandlers(env)[PlatformIds[i]].displayLabel
  {
    seq(|PlatformIds|, i requires 0 <= i < |PlatformIds| => Summary(env, PlatformIds[i]))
  }
}
