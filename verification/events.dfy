/** The decoded shape of one entry of a user's public event feed: only the
    fields the formatter reads. */
module Events {
  import opened Bytes

  const MinInt: int := -0x8000_0000_0000_0000
  const MaxInt: int := 0x7FFF_FFFF_FFFF_FFFF

  /** Go's `int` on a 64-bit platform; the JSON decoder rejects values outside it. */
  type GoInt = x: int | MinInt <= x <= MaxInt

  datatype Repo = Repo(name: Bytes)

  datatype PullRequest = PullRequest(title: Bytes)

  /** The flat payload record: every event kind's fields side by side, those a
      kind does not carry left at their zero value by the decoder. */
  datatype Payload = Payload(
    action: Bytes,
    ref: Bytes,
    refType: Bytes,
    size: GoInt,
    pullRequest: PullRequest)

  /** One activity record; `kind` is the feed's `type` tag. */
  datatype Event = Event(kind: Bytes, repo: Repo, payload: Payload)

  const PushEvent: Bytes := Ascii("PushEvent")
  const CreateEvent: Bytes := Ascii("CreateEvent")
  const IssuesEvent: Bytes := Ascii("IssuesEvent")
  const PullRequestEvent: Bytes := Ascii("PullRequestEvent")
  const WatchEvent: Bytes := Ascii("WatchEvent")
  const ForkEvent: Bytes := Ascii("ForkEvent")

  /** The six tags are pairwise different, so at most one template applies. */
  lemma KnownKindsDistinct()
    ensures PushEvent != CreateEvent && PushEvent != IssuesEvent && PushEvent != PullRequestEvent
    ensures PushEvent != WatchEvent && PushEvent != ForkEvent
    ensures CreateEvent != IssuesEvent && CreateEvent != PullRequestEvent
    ensures CreateEvent != WatchEvent && CreateEvent != ForkEvent
    ensures IssuesEvent != PullRequestEvent && IssuesEvent != WatchEvent && IssuesEvent != ForkEvent
    ensures PullRequestEvent != WatchEvent && PullRequestEvent != ForkEvent
    ensures WatchEvent != ForkEvent
  {
    assert PushEvent[0] != ForkEvent[0];
    assert CreateEvent[0] != IssuesEvent[0];
  }

  /** The six `type` tags the formatter has a template for. */
  predicate IsKnownKind(kind: Bytes) {
    || kind == PushEvent
    || kind == CreateEvent
    || kind == IssuesEvent
    || kind == PullRequestEvent
    || kind == WatchEvent
    || kind == ForkEvent
  }
}
