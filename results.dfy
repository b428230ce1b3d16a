/**
 * The uniform per-platform outcome every adapter reports, and the shapes of
 * the awaited I/O the adapters consume (an SDK call, an HTTP `fetch`).
 */
module Results {
  import opened Wrappers
  import opened Text
  import opened Constants

  datatype PlatformStatus = Sent | Skipped | Failed

  /** The wire form of a status. */
  function StatusName(s: PlatformStatus): string {
    match s
    case Sent => "sent"
    case Skipped => "skipped"
    case Failed => "failed"
  }

  /** Reading a status back; only the three wire names are statuses. */
  function ParseStatus(s: string): (r: Option<PlatformStatus>)
    ensures r.Some? ==> StatusName(r.value) == s
  {
    if s == "sent" then Some(Sent)
    else if s == "skipped" then Some(Skipped)
    else if s == "failed" then Some(Failed)
    else None
  }

  lemma ParseStatusName(s: PlatformStatus)
    ensures ParseStatus(StatusName(s)) == Some(s)
  {
  }

  /** The optional `metadata` record the adapters attach to a delivery. */
  datatype Metadata =
    | SidsMetadata(sids: seq<string>)
    | TweetMetadata(tweetId: string)

  datatype PlatformResult = PlatformResult(
    platform: PlatformId,
    status: PlatformStatus,
    detail: string,
    metadata: Option<Metadata>)

  /** A result without metadata. */
  function Report(platform: PlatformId, status: PlatformStatus, detail: string): (r: PlatformResult)
    ensures r.platform == platform && r.status == status && r.detail == detail && r.metadata.None?
  {
    PlatformResult(platform, status, detail, None)
  }

  /** The message body shared by WhatsApp and Twitter: `header\n\nmessage` when the header is truthy, else `message`. */
  function HeaderedBody(message: string, header: Option<string>): (r: string)
    ensures IsTruthy(header) ==> r == header.value + "\n\n" + message
    ensures !IsTruthy(header) ==> r == message
  {
    if IsTruthy(header) then header.value + "\n\n" + message else message
  }

  /** `Delivered to ${n} ${noun}${n === 1 ? "" : "s"}`. */
  function DeliveredDetail(n: nat, noun: string): (r: string)
    ensures |r| > 13 && r[..13] == "Delivered to "
    ensures noun != [] && noun[|noun| - 1] != 's' ==> (r[|r| - 1] == 's' <==> n != 1)
    ensures var tail := " " + noun + (if n == 1 then "" else "s");
      |tail| < |r| && r[|r| - |tail|..] == tail
  {
    "Delivered to " + NatToString(n) + " " + noun + (if n == 1 then "" else "s")
  }

  /** The count printed in a delivery detail reads back as the count. */
  lemma DeliveredDetailCount(n: nat, noun: string)
    ensures var digits := NatToString(n);
      var r := DeliveredDetail(n, noun);
      && 13 + |digits| <= |r| && r[13..13 + |digits|] == digits && DigitsValue(digits) == n
      && r[13 + |digits|..] == " " + noun + (if n == 1 then "" else "s")
  {
    var digits := NatToString(n);
    var r := DeliveredDetail(n, noun);
    assert r == "Delivered to " + digits + (" " + noun + (if n == 1 then "" else "s"));
    NatToStringValue(n);
  }

  /** The settlement of one awaited call: a value, or an `Error` whose message is known. */
  datatype CallOutcome<+T> = Resolved(value: T) | Thrown(message: string)

  /** What `await fetch(...)` produces: a response, or a rejection with a message. */
  datatype HttpReply = HttpReply(ok: bool, status: nat, statusText: string, body: string)
  datatype FetchOutcome = Reply(reply: HttpReply) | FetchRejected(message: string)

  /**
   * `await Promise.all(calls)`: every value in order when all resolve, else
   * the failure of one of the rejected calls. (Which one depends on timing;
   * this function reports the earliest in list order.)
   */
  function AwaitAll<T>(outcomes: seq<CallOutcome<T>>): (r: CallOutcome<seq<T>>)
    ensures r.Resolved? <==> forall i :: 0 <= i < |outcomes| ==> outcomes[i].Resolved?
    ensures r.Resolved? ==> (
      && |r.value| == |outcomes|
      && forall i :: 0 <= i < |outcomes| ==> outcomes[i] == Resolved(r.value[i]))
    ensures r.Thrown? ==> exists i :: 0 <= i < |outcomes| && outcomes[i] == Thrown(r.message)
  {
    if outcomes == [] then Resolved([])
    else match outcomes[0]
      case Thrown(m) => Thrown(m)
      case Resolved(v) =>
        match AwaitAll(outcomes[1..])
        case Thrown(m) => Thrown(m)
        case Resolved(vs) => Resolved([v] + vs)
  }
}
