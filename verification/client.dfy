/** The client façade: construction with a token, the two URL templates, the
    status gate of every GET, and `GetIssueEvents`, which chains them with the
    history dispatch. The transport and the JSON decoder are not modelled;
    they are passed in as functions. */
module Clients {
  import opened Wrappers
  import opened Text
  import opened Events
  import opened Errors
  import opened History

  /** The production endpoint a new client talks to. */
  const ApiURL: string := "https://api.zenhub.io"

  /** A client holds only its base URL and its token. */
  datatype Client = Client(url: string, token: string)

  /** Refuses the empty token before anything else happens; otherwise the
      client points at the production endpoint and keeps the token as given. */
  function NewClient(token: string): (r: Result<Client, Error>)
    ensures r.Failure? <==> token == ""
    ensures r.Failure? ==> Message(r.error) == "invalid token"
    ensures r.Success? ==> r.value.url == ApiURL && r.value.token == token
  {
    if token == "" then Failure(InvalidToken) else Success(Client(ApiURL, token))
  }

  // ---------------------------------------------------------------- URLs

  /** The two resources the client reads. */
  datatype Route = BoardRoute(repoID: int) | EventsRoute(repoID: int, issueNumber: int)

  const RepositoriesPrefix: string := "/p1/repositories/"
  const IssuesSegment: string := "issues/"

  /** The path of a route below the base URL, ids written with `%d`. */
  function RoutePath(r: Route): string
  {
    match r
    case BoardRoute(repoID) => RepositoriesPrefix + IntToDecimal(repoID) + "/board"
    case EventsRoute(repoID, issueNumber) =>
      RepositoriesPrefix + IntToDecimal(repoID) + "/" + IssuesSegment + IntToDecimal(issueNumber) + "/events"
  }

  function EventsURL(base: string, repoID: int, issueNumber: int): string
  {
    base + RoutePath(EventsRoute(repoID, issueNumber))
  }

  function BoardURL(base: string, repoID: int): string
  {
    base + RoutePath(BoardRoute(repoID))
  }

  /** Splits at the first slash: the text before it and the text after it. */
  function SplitAtSlash(s: string): (r: Option<(string, string)>)
    ensures r.Some? ==> '/' !in r.value.0 && s == r.value.0 + "/" + r.value.1
    ensures r.None? ==> '/' !in s
  {
    if |s| == 0 then None
    else if s[0] == '/' then Some(([], s[1..]))
    else
      match SplitAtSlash(s[1..])
      case None => None
      case Some(parts) => Some(([s[0]] + parts.0, parts.1))
  }

  /** Recognises the path of a route; the inverse of `RoutePath`. */
  function ParsePath(path: string): Option<Route>
  {
    if |path| < |RepositoriesPrefix| || path[..|RepositoriesPrefix|] != RepositoriesPrefix then None
    else
      var parts :- SplitAtSlash(path[|RepositoriesPrefix|..]);
      var repoID :- ParseDecimal(parts.0);
      var tail := parts.1;
      if tail == "board" then Some(BoardRoute(repoID))
      else if |tail| < |IssuesSegment| || tail[..|IssuesSegment|] != IssuesSegment then None
      else
        var rest :- SplitAtSlash(tail[|IssuesSegment|..]);
        var issueNumber :- ParseDecimal(rest.0);
        if rest.1 == "events" then Some(EventsRoute(repoID, issueNumber)) else None
  }

  lemma {:induction false} SplitAtSlashOf(a: string, b: string)
    requires '/' !in a
    ensures SplitAtSlash(a + "/" + b) == Some((a, b))
    decreases |a|
  {
    if |a| > 0 {
      assert (a + "/" + b)[1..] == a[1..] + "/" + b;
      SplitAtSlashOf(a[1..], b);
      assert [a[0]] + a[1..] == a;
    }
  }

  lemma NoSlashInDecimal(n: int)
    ensures '/' !in IntToDecimal(n)
  {
  }

  /** Every route's path reads back as that route. */
  lemma ParsePathInvertsRoutePath(r: Route)
    ensures ParsePath(RoutePath(r)) == Some(r)
  {
    match r
    case BoardRoute(repoID) => ParseBoardPath(repoID);
    case EventsRoute(repoID, issueNumber) => ParseEventsPath(repoID, issueNumber);
  }

  lemma ParseBoardPath(repoID: int)
    ensures ParsePath(RoutePath(BoardRoute(repoID))) == Some(BoardRoute(repoID))
  {
    var path := RoutePath(BoardRoute(repoID));
    var repo := IntToDecimal(repoID);
    NoSlashInDecimal(repoID);
    DecimalRoundTrip(repoID);
    assert path[..|RepositoriesPrefix|] == RepositoriesPrefix;
    assert path[|RepositoriesPrefix|..] == repo + "/" + "board";
    SplitAtSlashOf(repo, "board");
  }

  lemma ParseEventsPath(repoID: int, issueNumber: int)
    ensures ParsePath(RoutePath(EventsRoute(repoID, issueNumber))) == Some(EventsRoute(repoID, issueNumber))
  {
    var path := RoutePath(EventsRoute(repoID, issueNumber));
    var repo := IntToDecimal(repoID);
    var issue := IntToDecimal(issueNumber);
    var tail := IssuesSegment + issue + "/events";
    NoSlashInDecimal(repoID);
    DecimalRoundTrip(repoID);
    assert path[..|RepositoriesPrefix|] == RepositoriesPrefix;
    assert path[|RepositoriesPrefix|..] == repo + "/" + tail;
    SplitAtSlashOf(repo, tail);
    ParseIssuesTail(issueNumber);
  }

  lemma ParseIssuesTail(issueNumber: int)
    ensures var issue := IntToDecimal(issueNumber);
      var tail := IssuesSegment + issue + "/events";
      && tail != "board"
      && |IssuesSegment| <= |tail|
      && tail[..|IssuesSegment|] == IssuesSegment
      && SplitAtSlash(tail[|IssuesSegment|..]) == Some((issue, "events"))
      && ParseDecimal(issue) == Some(issueNumber)
  {
    var issue := IntToDecimal(issueNumber);
    var tail := IssuesSegment + issue + "/events";
    assert tail[0] == 'i';
    assert tail[..|IssuesSegment|] == IssuesSegment;
    assert tail[|IssuesSegment|..] == issue + "/" + "events";
    NoSlashInDecimal(issueNumber);
    SplitAtSlashOf(issue, "events");
    DecimalRoundTrip(issueNumber);
  }

  /** Below one base URL, different routes never share a URL: the events URL
      determines its repository and issue, and is never the board URL. */
  lemma RouteURLsInjective(base: string, r1: Route, r2: Route)
    ensures base + RoutePath(r1) == base + RoutePath(r2) <==> r1 == r2
  {
    if base + RoutePath(r1) == base + RoutePath(r2) {
      assert (base + RoutePath(r1))[|base|..] == RoutePath(r1);
      assert (base + RoutePath(r2))[|base|..] == RoutePath(r2);
      ParsePathInvertsRoutePath(r1);
      ParsePathInvertsRoutePath(r2);
    }
  }

  /** The same facts for the two URL templates: a board URL names one
      repository, an events URL one repository and one issue, and the two
      templates never produce the same URL. */
  lemma TemplateURLsInjective(base: string, repo1: int, repo2: int, issue1: int, issue2: int)
    ensures BoardURL(base, repo1) == BoardURL(base, repo2) <==> repo1 == repo2
    ensures EventsURL(base, repo1, issue1) == EventsURL(base, repo2, issue2) <==> repo1 == repo2 && issue1 == issue2
    ensures BoardURL(base, repo1) != EventsURL(base, repo2, issue2)
  {
    RouteURLsInjective(base, BoardRoute(repo1), BoardRoute(repo2));
    RouteURLsInjective(base, EventsRoute(repo1, issue1), EventsRoute(repo2, issue2));
    RouteURLsInjective(base, BoardRoute(repo1), EventsRoute(repo2, issue2));
  }

  // ---------------------------------------------------------------- GET

  /** The request every GET sends. */
  datatype Request = Request(verb: string, url: string, headers: seq<(string, string)>)

  function NewGetRequest(url: string, token: string): Request
  {
    Request("GET", url, [("Content-Type", "application/json"), ("X-Authentication-Token", token)])
  }

  /** What the transport reports for one request: a reply, or the stage at
      which it failed (building the request, sending it, reading the body). */
  datatype Exchange =
    | Response(status: int, body: string)
    | NotBuilt(cause: string)
    | NotSent(cause: string)
    | NotRead(cause: string)

  const StatusOK: int := 200

  /** One authenticated GET. The body is returned only for status 200; any
      other status is an error carrying the status and the body. */
  function Get(url: string, token: string, fetch: Request -> Exchange): (r: Result<string, Error>)
    ensures var ex := fetch(NewGetRequest(url, token));
      && (r.Success? <==> ex.Response? && ex.status == StatusOK)
      && (r.Success? ==> r.value == ex.body)
      && (ex.Response? && ex.status != StatusOK ==> r == Failure(BadStatus(ex.status, url, ex.body)))
      && (ex.NotSent? ==> r == Failure(RequestNotSent(url, ex.cause)))
  {
    match fetch(NewGetRequest(url, token))
    case NotBuilt(cause) => Failure(RequestNotBuilt(url, cause))
    case NotSent(cause) => Failure(RequestNotSent(url, cause))
    case NotRead(cause) => Failure(BodyNotRead(url, cause))
    case Response(status, body) =>
      if status != StatusOK then Failure(BadStatus(status, url, body)) else Success(body)
  }

  /** The token travels in the authentication header of the request sent. */
  lemma GetSendsToken(url: string, token: string)
    ensures NewGetRequest(url, token).verb == "GET"
    ensures ("X-Authentication-Token", token) in NewGetRequest(url, token).headers
  {
  }

  /** A reply with any status but 200 fails with a message that begins
      "failed to send request [<status>]" and ends with the reply's body. */
  lemma GetRejectsOtherStatus(url: string, token: string, fetch: Request -> Exchange)
    requires fetch(NewGetRequest(url, token)).Response?
    requires fetch(NewGetRequest(url, token)).status != StatusOK
    ensures var ex := fetch(NewGetRequest(url, token));
      var m := Message(Get(url, token, fetch).error);
      var p := "failed to send request [" + IntToDecimal(ex.status) + "]";
      && Get(url, token, fetch).Failure?
      && |p| + |ex.body| < |m|
      && m[..|p|] == p
      && m[|m| - |ex.body|..] == ex.body
  {
    var ex := fetch(NewGetRequest(url, token));
    var e := BadStatus(ex.status, url, ex.body);
    assert Get(url, token, fetch) == Failure(e);
    BadStatusMessageShape(ex.status, url, ex.body);
    assert Message(Get(url, token, fetch).error) == Message(e);
  }

  // ---------------------------------------------------------------- history

  /** Fetches the events URL of the issue, decodes the body with `unmarshal`
      (the JSON decoder, outside the model) and dispatches the envelopes. */
  function GetIssueEvents(
    c: Client, repoID: int, issueNumber: int,
    fetch: Request -> Exchange, unmarshal: string -> Result<seq<Envelope>, string>
  ): (r: Result<seq<Event>, Error>)
    ensures var url := EventsURL(c.url, repoID, issueNumber);
      var ex := fetch(NewGetRequest(url, c.token));
      && (!ex.Response? || ex.status != StatusOK ==> r == Get(url, c.token, fetch).PropagateFailure())
      && (ex.Response? && ex.status == StatusOK && unmarshal(ex.body).Failure? ==>
            r == Failure(PayloadNotUnmarshalled(url, ex.body, unmarshal(ex.body).error)))
      && (r.Success? ==>
            && ex.Response? && ex.status == StatusOK
            && unmarshal(ex.body).Success?
            && var ps := unmarshal(ex.body).value;
            && |r.value| == |ps|
            && forall i :: 0 <= i < |ps| ==> DecodeEnvelope(ps[i]) == Success(r.value[i]))
      && (ex.Response? && ex.status == StatusOK && unmarshal(ex.body).Success? ==>
            var ps := unmarshal(ex.body).value;
            && (r.Success? <==> forall i :: 0 <= i < |ps| ==> IsHistoryTag(ps[i].tag))
            && forall k :: FirstUnknown(ps, k) ==> r == Failure(UnknownEventType(ps[k].tag)))
  {
    var url := EventsURL(c.url, repoID, issueNumber);
    var body :- Get(url, c.token, fetch);
    match unmarshal(body)
    case Failure(cause) => Failure(PayloadNotUnmarshalled(url, body, cause))
    case Success(payload) =>
      DecodeEventsSpec(payload);
      DecodeEvents(payload)
  }

  /** A reply with any status but 200 ends the history request with the
      status error itself: the status, the events URL and the body. */
  lemma GetIssueEventsKeepsStatusError(
    c: Client, repoID: int, issueNumber: int,
    fetch: Request -> Exchange, unmarshal: string -> Result<seq<Envelope>, string>)
    requires var ex := fetch(NewGetRequest(EventsURL(c.url, repoID, issueNumber), c.token));
      ex.Response? && ex.status != StatusOK
    ensures var url := EventsURL(c.url, repoID, issueNumber);
      var ex := fetch(NewGetRequest(url, c.token));
      GetIssueEvents(c, repoID, issueNumber, fetch, unmarshal) == Failure(BadStatus(ex.status, url, ex.body))
  {
  }

  /** The source's server-error case: a 500 reply to the events request of
      repository 123, issue 456, fails with a message that begins
      "failed to send request [500]". */
  lemma ServerErrorScenario(c: Client, fetch: Request -> Exchange, unmarshal: string -> Result<seq<Envelope>, string>)
    requires fetch(NewGetRequest(EventsURL(c.url, 123, 456), c.token)) == Response(500, "Internal Server Error")
    ensures var r := GetIssueEvents(c, 123, 456, fetch, unmarshal);
      var prefix := "failed to send request [500]";
      && r.Failure?
      && |prefix| <= |Message(r.error)|
      && Message(r.error)[..|prefix|] == prefix
  {
    GetIssueEventsKeepsStatusError(c, 123, 456, fetch, unmarshal);
    ServerErrorMessage(EventsURL(c.url, 123, 456), "Internal Server Error");
  }

  /** The source's test reads the events of repository 123, issue 456. */
  lemma EventsURLScenario(base: string)
    ensures EventsURL(base, 123, 456) == base + "/p1/repositories/123/issues/456/events"
  {
    ThreeDigits(1, 2, 3);
    ThreeDigits(4, 5, 6);
    assert RoutePath(EventsRoute(123, 456)) == RepositoriesPrefix + "123" + "/" + IssuesSegment + "456" + "/events";
  }
}
