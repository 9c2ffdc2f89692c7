/** `fetchUserEvents`: the request URL, the dispatch on the response status, and the
    error values it returns. The HTTP exchange itself is a parameter. */
module Fetch {
  import opened Bytes
  import opened Wrappers
  import opened Fmt
  import opened Events

  const ApiPrefix: Bytes := Ascii("https://api.github.com/users/")
  const EventsSuffix: Bytes := Ascii("/events")

  /** The events endpoint of a user: the name is put into the path as it is, with
      no escaping. */
  function EventsUrl(username: Bytes): (url: Bytes)
    ensures |url| == |ApiPrefix| + |username| + |EventsSuffix|
    ensures StartsWith(url, ApiPrefix) && EndsWith(url, EventsSuffix)
    ensures url[|ApiPrefix|..|url| - |EventsSuffix|] == username
  {
    ApiPrefix + username + EventsSuffix
  }

  /** The user named by an events URL, if it has that shape. */
  function UsernameOfUrl(url: Bytes): Option<Bytes> {
    if |ApiPrefix| + |EventsSuffix| <= |url| && StartsWith(url, ApiPrefix) && EndsWith(url, EventsSuffix)
    then Some(url[|ApiPrefix|..|url| - |EventsSuffix|])
    else None
  }

  /** The URL names the user it was built for, so distinct users get distinct URLs. */
  lemma EventsUrlRoundTrip(username: Bytes)
    ensures UsernameOfUrl(EventsUrl(username)) == Some(username)
  {
  }

  lemma EventsUrlInjective(u1: Bytes, u2: Bytes)
    requires EventsUrl(u1) == EventsUrl(u2)
    ensures u1 == u2
  {
    EventsUrlRoundTrip(u1);
    EventsUrlRoundTrip(u2);
  }

  /** What the status code of a received response leads to. */
  datatype StatusVerdict = NotFound(username: Bytes) | BadStatus(code: int) | Decode

  /** 404 means the user does not exist, any other code but 200 is a failure that
      reports the code, and only 200 goes on to decode the body. */
  function ClassifyStatus(username: Bytes, status: int): (v: StatusVerdict)
    ensures v.Decode? <==> status == 200
    ensures v.NotFound? <==> status == 404
    ensures v.NotFound? ==> v.username == username
    ensures v.BadStatus? ==> v.code == status && status != 200 && status != 404
  {
    if status == 404 then NotFound(username)
    else if status != 200 then BadStatus(status)
    else Decode
  }

  /** The errors `fetchUserEvents` returns; `detail` is the underlying library error's text. */
  datatype FetchError =
    | RequestNotBuilt(detail: Bytes)
    | RequestNotSent(detail: Bytes)
    | UserNotFound(username: Bytes)
    | UnexpectedStatus(code: int)
    | DecodeFailed(detail: Bytes)

  const BuildHead: Bytes := Ascii("error creating request: ")
  const SendHead: Bytes := Ascii("error making request: ")
  const NotFoundHead: Bytes := Ascii("user '")
  const NotFoundTail: Bytes := Ascii("' not found")
  const StatusHead: Bytes := Ascii("API request failed with status: ")
  const DecodeHead: Bytes := Ascii("error parsing JSON: ")

  /** The text of each error, as `fmt.Errorf` builds it: a fixed head per kind,
      followed by the library's error text, the user name or the status numeral. */
  function ErrorMessage(e: FetchError): (m: Bytes)
    ensures e.RequestNotBuilt? ==> StartsWith(m, BuildHead) && m[|BuildHead|..] == e.detail
    ensures e.RequestNotSent? ==> StartsWith(m, SendHead) && m[|SendHead|..] == e.detail
    ensures e.UserNotFound? ==>
      StartsWith(m, NotFoundHead) && EndsWith(m, NotFoundTail)
      && |NotFoundHead| + |NotFoundTail| <= |m|
      && m[|NotFoundHead|..|m| - |NotFoundTail|] == e.username
    ensures e.UnexpectedStatus? ==>
      StartsWith(m, StatusHead) && m[|StatusHead|..] == FormatInt(e.code)
      && ParseInt(m[|StatusHead|..]) == Some(e.code)
    ensures e.DecodeFailed? ==> StartsWith(m, DecodeHead) && m[|DecodeHead|..] == e.detail
  {
    match e
    case RequestNotBuilt(detail) =>
      assert (BuildHead + detail)[|BuildHead|..] == detail;
      BuildHead + detail
    case RequestNotSent(detail) =>
      assert (SendHead + detail)[|SendHead|..] == detail;
      SendHead + detail
    case UserNotFound(username) =>
      MiddleOfConcat(NotFoundHead, username, NotFoundTail);
      NotFoundHead + username + NotFoundTail
    case UnexpectedStatus(code) =>
      assert (StatusHead + FormatInt(code))[|StatusHead|..] == FormatInt(code);
      FormatIntRoundTrip(code);
      StatusHead + FormatInt(code)
    case DecodeFailed(detail) =>
      assert (DecodeHead + detail)[|DecodeHead|..] == detail;
      DecodeHead + detail
  }

  /** Reads an error message back as the error it reports, telling the kinds apart
      by their fixed heads. */
  function ErrorOfMessage(m: Bytes): Option<FetchError> {
    if StartsWith(m, NotFoundHead) && EndsWith(m, NotFoundTail) && |NotFoundHead| + |NotFoundTail| <= |m|
    then Some(UserNotFound(m[|NotFoundHead|..|m| - |NotFoundTail|]))
    else if StartsWith(m, StatusHead) then
      match ParseInt(m[|StatusHead|..])
      case Some(code) => Some(UnexpectedStatus(code))
      case None => None
    else if StartsWith(m, BuildHead) then Some(RequestNotBuilt(m[|BuildHead|..]))
    else if StartsWith(m, SendHead) then Some(RequestNotSent(m[|SendHead|..]))
    else if StartsWith(m, DecodeHead) then Some(DecodeFailed(m[|DecodeHead|..]))
    else None
  }

  /** Each message names its error completely: the kind, and the user name, status
      code or library error text it carries, can all be read back. */
  lemma ErrorMessageRoundTrip(e: FetchError)
    ensures ErrorOfMessage(ErrorMessage(e)) == Some(e)
  {
    var m := ErrorMessage(e);
    match e
    case RequestNotBuilt(_) =>
      StartsWithExcludes(m, BuildHead, NotFoundHead, 0);
      StartsWithExcludes(m, BuildHead, StatusHead, 0);
    case RequestNotSent(_) =>
      StartsWithExcludes(m, SendHead, NotFoundHead, 0);
      StartsWithExcludes(m, SendHead, StatusHead, 0);
      StartsWithExcludes(m, SendHead, BuildHead, 6);
    case UserNotFound(_) =>
    case UnexpectedStatus(_) =>
      StartsWithExcludes(m, StatusHead, NotFoundHead, 0);
    case DecodeFailed(_) =>
      StartsWithExcludes(m, DecodeHead, NotFoundHead, 0);
      StartsWithExcludes(m, DecodeHead, StatusHead, 0);
      StartsWithExcludes(m, DecodeHead, BuildHead, 6);
      StartsWithExcludes(m, DecodeHead, SendHead, 6);
  }

  /** Different errors are reported with different messages. */
  lemma ErrorMessageInjective(e1: FetchError, e2: FetchError)
    requires ErrorMessage(e1) == ErrorMessage(e2)
    ensures e1 == e2
  {
    ErrorMessageRoundTrip(e1);
    ErrorMessageRoundTrip(e2);
  }

  /** A received response: its status code, and what decoding its body as a JSON
      array of events yields (an event list, or the decoder's error text). */
  datatype Response = Response(status: int, decoded: Result<seq<Event>, Bytes>)

  /** The outcome of one GET: the request could not be built, could not be sent
      (connection, DNS, timeout), or a response came back. */
  datatype Exchange =
    | BuildFailed(detail: Bytes)
    | SendFailed(detail: Bytes)
    | Received(response: Response)

  /** Go's `fetchUserEvents`, with `get` standing for the HTTP client: the feed is
      returned only for a 200 response whose body decodes, and in the order decoded. */
  function FetchUserEvents(username: Bytes, get: Bytes -> Exchange): (r: Result<seq<Event>, FetchError>)
    ensures var x := get(EventsUrl(username));
      r.Success? <==> x.Received? && x.response.status == 200 && x.response.decoded.Success?
    ensures var x := get(EventsUrl(username));
      r.Success? ==> r.value == x.response.decoded.value
    ensures var x := get(EventsUrl(username));
      x.BuildFailed? ==> r == Failure(RequestNotBuilt(x.detail))
    ensures var x := get(EventsUrl(username));
      x.SendFailed? ==> r == Failure(RequestNotSent(x.detail))
    ensures var x := get(EventsUrl(username));
      x.Received? && x.response.status == 404 ==> r == Failure(UserNotFound(username))
    ensures var x := get(EventsUrl(username));
      x.Received? && x.response.status != 200 && x.response.status != 404
      ==> r == Failure(UnexpectedStatus(x.response.status))
    ensures var x := get(EventsUrl(username));
      x.Received? && x.response.status == 200 && x.response.decoded.Failure?
      ==> r == Failure(DecodeFailed(x.response.decoded.error))
  {
    match get(EventsUrl(username))
    case BuildFailed(detail) => Failure(RequestNotBuilt(detail))
    case SendFailed(detail) => Failure(RequestNotSent(detail))
    case Received(response) =>
      match ClassifyStatus(username, response.status)
      case NotFound(u) => Failure(UserNotFound(u))
      case BadStatus(code) => Failure(UnexpectedStatus(code))
      case Decode =>
        match response.decoded
        case Success(events) => Success(events)
        case Failure(detail) => Failure(DecodeFailed(detail))
  }
}
