# github-user-activity: the event formatter, modelled in Dafny

`github-activity <username>` fetches a user's public event feed from the GitHub
REST API and prints one line per recognised event. This project models the
program's single source file, `main.go`, as pure functions over immutable data:

- **Strings** are Go strings, byte sequences (`Bytes.Bytes = seq<byte>`). The
  program's string literals are written `Ascii("...")`.
- **`fmt` verbs.** `Fmt.FormatInt` models `%d` and has a parser that serves as its
  inverse. `Fmt.EncodeRune` models `%c` for the byte values `capitalize` hands it,
  which means UTF-8 with one byte below 128 and two bytes from 128 on.
- **Events** (`Events`): `Event`, `Repo`, the flat `Payload` and the six
  recognised `type` tags. The Dafny field `kind` is the feed's `type`.
- **`capitalize` and `formatEvent`** (`Format`). It also defines `Activity`, a
  tagged union with one variant per recognised kind, and `Classify`, which projects
  an event onto the fields its template reads. These are used to state what the
  description depends on.
- **`displayEvents`** (`Display`). Printed output becomes a returned list of lines.
  There are three views of it:
  - `DisplayEvents`, the function;
  - `PrintEvents`, the loop as written;
  - `KeptIndices`, which describes the result as an order-preserving filter.
- **`fetchUserEvents`** (`Fetch`): the URL template, the status dispatch, the
  error values and their messages. The HTTP exchange is a parameter
  `get: Bytes -> Exchange`. JSON decoding is abstract: a `Response` carries what
  decoding produced.
- **`main`** (`Cli`): the argument-count rule, and a run returning its output lines
  together with its exit status.

The model follows the code throughout. In particular:
- `capitalize` is the byte shift `s[0] - 32` written with `%c`, not a general
  uppercase.
- A failed request keeps the code's two distinct messages: the request could not
  be built, or it could not be sent.

## Model

| member | source | states |
|---|---|---|
| Fmt.FormatInt | main.go:99-101 | `%d` output: a leading minus exactly for negative numbers, then a non-empty run of digits with no leading zero (a lone "0" for zero) |
| Fmt.FormatIntRoundTrip | main.go:99-101 | the numeral written for the commit count reads back as the same integer |
| Fmt.FormatIntInjective | main.go:99-101 | different commit counts are written as different numerals |
| Fmt.EncodeRune | main.go:135 | `%c` of a code point below 256 is one byte (the value) below 128, and otherwise a two-byte UTF-8 sequence (lead C2..C3, continuation 80..BF) |
| Fmt.EncodeRuneRoundTrip | main.go:135 | the bytes `%c` writes decode back to the code point it was given |
| Events.KnownKindsDistinct | main.go:97-124 | the six `case` tags of the switch are pairwise different, so at most one template applies to an event |
| Format.Capitalize | main.go:131-136 | the empty string is returned unchanged; a lowercase ASCII first byte becomes the uppercase letter at the same alphabet position, with the rest untouched and the length kept; for any first byte the rest of the string is kept and the length grows by at most one |
| Format.FormatEvent | main.go:96-129 | the description is empty exactly when the `type` tag is not one of the six recognised ones; for a recognised tag it ends with the repository name |
| Format.Classify | main.go:98-124 | each recognised kind's projection keeps the repository name, and an unrecognised kind has no projection |
| Format.FormatEventDependsOnlyOnUsedFields | main.go:98-124 | two events that agree on kind, repository name and the fields their template reads get the same description |
| Format.WatchAndForkIgnorePayload | main.go:120-124 | for a WatchEvent or ForkEvent, no change to the payload changes the description |
| Format.PushDescription | main.go:98-101 | a push reads "Pushed ", then exactly the `%d` numeral of the commit count (which parses back to the count), then " commits to " and the repository name |
| Format.CreateDescription | main.go:103-107 | a create event reads "Created ", then the ref type, " '" and the ref name, then "' in " and the repository name |
| Format.PullRequestDescription | main.go:114-118 | a pull request event reads as the capitalised action and " pull request '", then the title, then "' in " and the repository name |
| Format.WatchAndForkDescription | main.go:120-124 | a watch event reads exactly "Starred " and the repository name; a fork event reads exactly "Forked " and the repository name |
| Format.IssuesDescription | main.go:109-112 | an issue event reads as the capitalised action, " issue in " and the repository name, and starts with an uppercase letter when the action starts with a lowercase one |
| Format.CapitalizeOpened | main.go:131-136 | "opened" is capitalised to "Opened" |
| Format.PushExample | main.go:98-101 | a push of 3 commits to octo/repo reads "Pushed 3 commits to octo/repo" |
| Format.IssueExample | main.go:109-112 | an issue opened in octo/repo reads "Opened issue in octo/repo" |
| Format.WatchExample | main.go:120-121 | starring octo/repo reads "Starred octo/repo" |
| Display.KeptIndices | main.go:88-93 | the positions of the recognised events, each once and in increasing order |
| Display.ActivityLines | main.go:88-93 | every line the loop prints is "- " followed by a non-empty description |
| Display.ActivityLinesCount | main.go:88-93 | the loop prints exactly one line per recognised event |
| Display.KeptIndicesCount | main.go:88-93 | no more lines than events, and no lines exactly when no event is recognised |
| Display.ActivityLinesFollowKeptIndices | main.go:88-93 | there are as many lines as recognised events, and the k-th printed line is "- " followed by the description of the k-th recognised event |
| Display.ActivityLinesStep | main.go:88-93 | one more loop iteration appends that event's line, or nothing when its description is empty |
| Display.DisplayEvents | main.go:82-94 | an empty feed prints exactly the notice "No recent activity found". A non-empty feed prints at most one bullet line per event, and none at all (not the notice) when every event is unrecognised |
| Display.DisplayEventsIsOrderedFilter | main.go:82-94 | for a non-empty feed the lines are exactly the recognised events' lines in feed order: a position is kept if and only if its description is non-empty |
| Display.PrintEvents | main.go:82-94 | walking the feed once and printing each non-empty description behind "- " yields exactly `DisplayEvents` |
| Fetch.EventsUrl | main.go:49 | the URL is the fixed API prefix, the user name verbatim, then "/events" |
| Fetch.EventsUrlRoundTrip | main.go:49 | the user name can be read back out of the URL |
| Fetch.EventsUrlInjective | main.go:49 | different user names give different URLs |
| Fetch.ClassifyStatus | main.go:65-71 | 404 means "user not found" and carries the user name; every other code except 200 is a failure that carries the code; only 200 goes on to decoding |
| Fetch.ErrorMessage | main.go:53-77 | each message is its kind's fixed head followed by what the error carries: the library's error text after "error creating request: ", "error making request: " or "error parsing JSON: "; the user name between "user '" and "' not found"; exactly the `%d` numeral of the code, which parses back to the code, after "API request failed with status: " |
| Fetch.ErrorMessageRoundTrip | main.go:53-77 | the kind of error and everything it carries can be read back from its message |
| Fetch.ErrorMessageInjective | main.go:53-77 | different errors are reported with different messages |
| Fetch.FetchUserEvents | main.go:48-80 | the feed is returned, in decoded order, exactly for a 200 response whose body decodes. Each other outcome gives its own error: request not built, request not sent, 404, other status, undecodable body |
| Cli.Username | main.go:33-38 | a user name exists exactly when the command line has one argument after the program name, and it is that argument |
| Cli.Run | main.go:32-46 | exit status 0 exactly when there is one argument and the fetch succeeds. The usage line alone on a wrong argument count; a single "Error fetching events: " line on a fetch error; otherwise the displayed feed |
| Cli.RunUnknownUser | main.go:39-43 | a 404 prints one error line naming the user, exits with 1, and prints no event lines |
| Cli.RunEmptyFeed | main.go:39-46 | a 200 response with an empty array prints only the notice and exits with 0 |
| Cli.RunUndecodableBody | main.go:73-77 | a 200 response whose body does not decode prints one JSON error line and exits with 1 |

## Left out

- The HTTP client is left out: the 10-second timeout, the `User-Agent` header, and closing the response body (main.go:51-63). They are network I/O and resource handling, so the exchange is the parameter `get`.
- JSON decoding (`encoding/json`, main.go:73-77) is left out. Its result, an event list or the decoder's error text, is part of the `Response` input.
- Printing and `os.Exit` are left out. `Run` returns the printed lines and the exit status instead. A line is one `Println`/`Printf` call: a description that itself contains a newline would appear as two terminal lines.
- The fields that are never read are left out: `PushID`, `IssueTitle` and `CreatedAt` (main.go:18, 20, 25). One side effect is not modelled. `IssueTitle`'s tag `json:"issue,title"` binds the payload key `"issue"`, which GitHub fills with an object. For a feed containing an issue event, `encoding/json` would therefore fail at main.go:75 with a type error, and the whole feed takes the "error parsing JSON" path. The model takes the decoding result as given, so `Response.decoded` may still be `Success` for such a feed.
- `Payload.Size` is assumed to be Go's 64-bit `int` (`Events.GoInt`). The decoder's rejection of larger numbers belongs to JSON decoding.
- Format.Capitalize: the contract pins the result down only for a lowercase ASCII first byte. For any other first byte it states only that the rest of the string is kept and the length grows by at most one. The body follows Go's byte wrap-around and `%c` encoding, but that output is an accident of the arithmetic, not a promise of the program.
- The error texts of the underlying library calls (`http.NewRequest`, `client.Do`, the decoder) are opaque `detail` bytes.
