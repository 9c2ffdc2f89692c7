/** `main`: the argument rule, then fetch, then display; the process's standard
    output is returned as a list of lines together with its exit status. */
module Cli {
  import opened Bytes
  import opened Wrappers
  import opened Events
  import opened Display
  import opened Fetch

  const UsageLine: Bytes := Ascii("Usage: github-activity <username>")
  const ErrorHead: Bytes := Ascii("Error fetching events: ")

  /** The user name, when the command line (program name first) holds exactly one argument. */
  function Username(args: seq<Bytes>): (r: Option<Bytes>)
    ensures r.Some? <==> |args| == 2
    ensures r.Some? ==> r.value == args[1]
  {
    if |args| != 2 then None else Some(args[1])
  }

  /** What a run prints, line by line, and the status it exits with. */
  datatype Outcome = Outcome(lines: seq<Bytes>, exitCode: int)

  /** Go's `main`: a usage line and status 1 for a wrong argument count, one error
      line and status 1 when fetching fails, and otherwise the displayed feed with
      status 0. */
  function Run(args: seq<Bytes>, get: Bytes -> Exchange): (o: Outcome)
    ensures o.exitCode == 0 <==> |args| == 2 && FetchUserEvents(args[1], get).Success?
    ensures o.exitCode != 0 ==> o.exitCode == 1 && |o.lines| == 1
    ensures |args| != 2 ==> o.lines == [UsageLine]
    ensures |args| == 2 && FetchUserEvents(args[1], get).Failure? ==>
      o.lines == [ErrorHead + ErrorMessage(FetchUserEvents(args[1], get).error)]
    ensures |args| == 2 && FetchUserEvents(args[1], get).Success? ==>
      o.lines == DisplayEvents(FetchUserEvents(args[1], get).value)
  {
    match Username(args)
    case None => Outcome([UsageLine], 1)
    case Some(username) =>
      match FetchUserEvents(username, get)
      case Failure(e) => Outcome([ErrorHead + ErrorMessage(e)], 1)
      case Success(events) => Outcome(DisplayEvents(events), 0)
  }

  /** A user the API does not know: one error line naming the user, status 1, and no
      event lines. */
  lemma RunUnknownUser(program: Bytes, username: Bytes, get: Bytes -> Exchange)
    requires get(EventsUrl(username)).Received?
    requires get(EventsUrl(username)).response.status == 404
    ensures Run([program, username], get)
      == Outcome([ErrorHead + (NotFoundHead + username + NotFoundTail)], 1)
  {
  }

  /** A 200 response whose body is the empty array: only the notice, status 0. */
  lemma RunEmptyFeed(program: Bytes, username: Bytes, get: Bytes -> Exchange)
    requires get(EventsUrl(username)) == Received(Response(200, Success([])))
    ensures Run([program, username], get) == Outcome([NoActivity], 0)
  {
  }

  /** A 200 response whose body does not decode: one error line, status 1. */
  lemma RunUndecodableBody(program: Bytes, username: Bytes, get: Bytes -> Exchange, detail: Bytes)
    requires get(EventsUrl(username)) == Received(Response(200, Failure(detail)))
    ensures Run([program, username], get)
      == Outcome([ErrorHead + (DecodeHead + detail)], 1)
  {
  }
}
