/** `formatEvent` and `capitalize`: one description line per recognised event. */
module Format {
  import opened Bytes
  import opened Wrappers
  import opened Fmt
  import opened Events

  predicate IsLower(b: byte) {
    'a' as int <= b as int <= 'z' as int
  }

  predicate IsUpper(b: byte) {
    'A' as int <= b as int <= 'Z' as int
  }

  /** Go's `capitalize`: the first byte less 32 (wrapping as a `byte` does), written
      with `%c`, followed by the rest of the string. For a lowercase ASCII first
      letter that is its uppercase letter; for any other first byte the rest is
      still kept and only the first byte is rewritten, as one or two bytes. */
  function Capitalize(s: Bytes): (r: Bytes)
    ensures s == [] ==> r == []
    ensures s != [] && IsLower(s[0]) ==>
      && |r| == |s|
      && IsUpper(r[0])
      && r[0] as int - 'A' as int == s[0] as int - 'a' as int
      && r[1..] == s[1..]
    ensures s != [] ==> |s| <= |r| <= |s| + 1 && EndsWith(r, s[1..])
  {
    if |s| == 0 then s
    else EncodeRune(((s[0] as int - 32) % 256) as byte) + s[1..]
  }

  /** Go's `formatEvent`: a fixed template per recognised `type` tag, and the empty
      string for any other tag. */
  function FormatEvent(e: Event): (r: Bytes)
    ensures r == [] <==> !IsKnownKind(e.kind)
    ensures IsKnownKind(e.kind) ==> EndsWith(r, e.repo.name)
  {
    if e.kind == PushEvent then
      Ascii("Pushed ") + FormatInt(e.payload.size) + Ascii(" commits to ") + e.repo.name
    else if e.kind == CreateEvent then
      Ascii("Created ") + e.payload.refType + Ascii(" '") + e.payload.ref + Ascii("' in ") + e.repo.name
    else if e.kind == IssuesEvent then
      Capitalize(e.payload.action) + Ascii(" issue in ") + e.repo.name
    else if e.kind == PullRequestEvent then
      Capitalize(e.payload.action) + Ascii(" pull request '") + e.payload.pullRequest.title
        + Ascii("' in ") + e.repo.name
    else if e.kind == WatchEvent then
      Ascii("Starred ") + e.repo.name
    else if e.kind == ForkEvent then
      Ascii("Forked ") + e.repo.name
    else
      []
  }

  /** The payload read as the tagged union it stands for: per recognised kind, exactly
      the fields that kind's description is made of. */
  datatype Activity =
    | Pushed(size: int, repo: Bytes)
    | Created(refType: Bytes, ref: Bytes, repo: Bytes)
    | IssueChanged(action: Bytes, repo: Bytes)
    | PullRequestChanged(action: Bytes, title: Bytes, repo: Bytes)
    | Starred(repo: Bytes)
    | Forked(repo: Bytes)

  /** Projects an event on the fields its kind uses; `None` for an unrecognised kind. */
  function Classify(e: Event): (a: Option<Activity>)
    ensures a.None? <==> !IsKnownKind(e.kind)
    ensures a.Some? ==> a.value.repo == e.repo.name
  {
    if e.kind == PushEvent then Some(Pushed(e.payload.size, e.repo.name))
    else if e.kind == CreateEvent then Some(Created(e.payload.refType, e.payload.ref, e.repo.name))
    else if e.kind == IssuesEvent then Some(IssueChanged(e.payload.action, e.repo.name))
    else if e.kind == PullRequestEvent then
      Some(PullRequestChanged(e.payload.action, e.payload.pullRequest.title, e.repo.name))
    else if e.kind == WatchEvent then Some(Starred(e.repo.name))
    else if e.kind == ForkEvent then Some(Forked(e.repo.name))
    else None
  }

  /** Two events that agree on the fields their kind uses are described alike. */
  lemma FormatEventDependsOnlyOnUsedFields(e1: Event, e2: Event)
    requires Classify(e1) == Classify(e2)
    ensures FormatEvent(e1) == FormatEvent(e2)
  {
  }

  /** A starred or forked repository is described the same whatever the payload. */
  lemma WatchAndForkIgnorePayload(e: Event, p: Payload)
    requires e.kind == WatchEvent || e.kind == ForkEvent
    ensures FormatEvent(e.(payload := p)) == FormatEvent(e)
  {
    KnownKindsDistinct();
    FormatEventDependsOnlyOnUsedFields(e, e.(payload := p));
  }

  /** A push is described as "Pushed ", the `%d` numeral of the commit count (which
      reads back as that count), and " commits to " followed by the repository name. */
  lemma PushDescription(e: Event)
    requires e.kind == PushEvent
    ensures var r := FormatEvent(e);
      var tail := Ascii(" commits to ") + e.repo.name;
      && StartsWith(r, Ascii("Pushed "))
      && EndsWith(r, tail)
      && 7 <= |r| - |tail|
      && r[7..|r| - |tail|] == FormatInt(e.payload.size)
      && ParseInt(r[7..|r| - |tail|]) == Some(e.payload.size as int)
  {
    var head := Ascii("Pushed ");
    var count := FormatInt(e.payload.size);
    var tail := Ascii(" commits to ") + e.repo.name;
    assert FormatEvent(e) == head + count + tail;
    MiddleOfConcat(head, count, tail);
    FormatIntRoundTrip(e.payload.size);
  }

  /** A created branch or tag is described as "Created ", its ref type, the ref
      name in single quotes, " in " and the repository name. */
  lemma CreateDescription(e: Event)
    requires e.kind == CreateEvent
    ensures var r := FormatEvent(e);
      var tail := Ascii("' in ") + e.repo.name;
      && StartsWith(r, Ascii("Created "))
      && EndsWith(r, tail)
      && 8 <= |r| - |tail|
      && r[8..|r| - |tail|] == e.payload.refType + Ascii(" '") + e.payload.ref
  {
    KnownKindsDistinct();
    var head := Ascii("Created ");
    var middle := e.payload.refType + Ascii(" '") + e.payload.ref;
    var tail := Ascii("' in ") + e.repo.name;
    assert FormatEvent(e) == head + middle + tail;
    MiddleOfConcat(head, middle, tail);
  }

  /** A pull request event is described as its capitalised action, " pull request ",
      the title in single quotes, " in " and the repository name. */
  lemma PullRequestDescription(e: Event)
    requires e.kind == PullRequestEvent
    ensures var r := FormatEvent(e);
      var head := Capitalize(e.payload.action) + Ascii(" pull request '");
      var tail := Ascii("' in ") + e.repo.name;
      && StartsWith(r, head)
      && EndsWith(r, tail)
      && |head| <= |r| - |tail|
      && r[|head|..|r| - |tail|] == e.payload.pullRequest.title
  {
    KnownKindsDistinct();
    var head := Capitalize(e.payload.action) + Ascii(" pull request '");
    var middle := e.payload.pullRequest.title;
    var tail := Ascii("' in ") + e.repo.name;
    assert FormatEvent(e) == head + middle + tail;
    MiddleOfConcat(head, middle, tail);
  }

  /** A starred repository is described as "Starred " and its name, a forked one as
      "Forked " and its name. */
  lemma WatchAndForkDescription(e: Event)
    ensures e.kind == WatchEvent ==> FormatEvent(e) == Ascii("Starred ") + e.repo.name
    ensures e.kind == ForkEvent ==> FormatEvent(e) == Ascii("Forked ") + e.repo.name
  {
    KnownKindsDistinct();
  }

  /** An issue event is described as its capitalised action, " issue in " and the
      repository name; a lowercase action comes out with an uppercase first letter. */
  lemma IssuesDescription(e: Event)
    requires e.kind == IssuesEvent
    ensures FormatEvent(e) == Capitalize(e.payload.action) + Ascii(" issue in ") + e.repo.name
    ensures e.payload.action != [] && IsLower(e.payload.action[0]) ==> IsUpper(FormatEvent(e)[0])
  {
    KnownKindsDistinct();
  }

  /** Example: a push of three commits to octo/repo. */
  lemma PushExample()
    ensures FormatEvent(Event(PushEvent, Repo(Ascii("octo/repo")), Payload([], [], [], 3, PullRequest([]))))
      == Ascii("Pushed 3 commits to octo/repo")
  {
    assert FormatInt(3) == Ascii("3");
    AsciiAppend("Pushed ", "3");
    AsciiAppend("Pushed 3", " commits to ");
    AsciiAppend("Pushed 3 commits to ", "octo/repo");
    assert "Pushed 3 commits to " + "octo/repo" == "Pushed 3 commits to octo/repo";
  }

  /** Capitalising "opened" gives "Opened". */
  lemma CapitalizeOpened()
    ensures Capitalize(Ascii("opened")) == Ascii("Opened")
  {
    var s := Ascii("opened");
    assert s[0] == 111;
    assert Capitalize(s) == EncodeRune(79) + s[1..];
    assert EncodeRune(79) == Ascii("O");
    AsciiDrop("opened", 1);
    assert "opened"[1..] == "pened";
    AsciiAppend("O", "pened");
    assert "O" + "pened" == "Opened";
  }

  /** Example: an issue opened in octo/repo. */
  lemma IssueExample()
    ensures FormatEvent(Event(IssuesEvent, Repo(Ascii("octo/repo")), Payload(Ascii("opened"), [], [], 0, PullRequest([]))))
      == Ascii("Opened issue in octo/repo")
  {
    var e := Event(IssuesEvent, Repo(Ascii("octo/repo")), Payload(Ascii("opened"), [], [], 0, PullRequest([])));
    IssuesDescription(e);
    CapitalizeOpened();
    AsciiAppend("Opened", " issue in ");
    AsciiAppend("Opened issue in ", "octo/repo");
    assert "Opened issue in " + "octo/repo" == "Opened issue in octo/repo";
  }

  /** Example: octo/repo starred. */
  lemma WatchExample()
    ensures FormatEvent(Event(WatchEvent, Repo(Ascii("octo/repo")), Payload([], [], [], 0, PullRequest([]))))
      == Ascii("Starred octo/repo")
  {
    KnownKindsDistinct();
    AsciiAppend("Starred ", "octo/repo");
    assert "Starred " + "octo/repo" == "Starred octo/repo";
  }
}
