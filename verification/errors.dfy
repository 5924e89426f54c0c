/** The error values the client returns and the text of each one. Messages
    follow `fmt` and `github.com/pkg/errors`: a wrapped cause is appended after
    ": ", and `%q` / `%d` are the quoting and decimal formats of `Text`. */
module Errors {
  import opened Wrappers
  import opened Text

  datatype Error =
    | InvalidToken
      /** A discriminator outside the closed set of event variants. */
    | UnknownEventType(t: string)
    | RequestNotBuilt(url: string, cause: string)
    | RequestNotSent(url: string, cause: string)
    | BodyNotRead(url: string, cause: string)
      /** A reply whose status is not 200 OK; keeps the status and the raw body. */
    | BadStatus(status: int, url: string, body: string)
    | PayloadNotUnmarshalled(url: string, body: string, cause: string)
    | DataNotParsed(cause: string)

  const UnknownEventTypePrefix: string := "unknown event type "
  const SendFailurePrefix: string := "failed to send request "

  /** What `Error()` returns for each error value. */
  function Message(e: Error): string
  {
    match e
    case InvalidToken => "invalid token"
    case UnknownEventType(t) => UnknownEventTypePrefix + Quote(t)
    case RequestNotBuilt(url, cause) => "failed to create request " + Quote(url) + ": " + cause
    case RequestNotSent(url, cause) => SendFailurePrefix + Quote(url) + ": " + cause
    case BodyNotRead(url, cause) => "failed to read response body " + Quote(url) + ": " + cause
    case BadStatus(status, url, body) => SendFailurePrefix + "[" + IntToDecimal(status) + "] " + Quote(url) + " " + body
    case PayloadNotUnmarshalled(url, body, cause) => "failed to unmarshal payload " + Quote(url) + " " + body + " " + cause
    case DataNotParsed(cause) => "failed to parse data: " + cause
  }

  /** The unknown-type message is a function of the tag alone and gives the
      tag back: stripping the fixed prefix and unquoting the rest yields it. */
  lemma UnknownEventTypeMessageRecoversTag(t: string)
    ensures var m := Message(UnknownEventType(t));
      && |UnknownEventTypePrefix| < |m|
      && m[..|UnknownEventTypePrefix|] == UnknownEventTypePrefix
      && Unquote(m[|UnknownEventTypePrefix|..]) == Some(t)
  {
    var m := Message(UnknownEventType(t));
    assert m[|UnknownEventTypePrefix|..] == Quote(t);
    QuoteRoundTrip(t);
  }

  /** Two unknown-type errors print alike exactly when their tags are equal. */
  lemma UnknownEventTypeMessageInjective(a: string, b: string)
    ensures Message(UnknownEventType(a)) == Message(UnknownEventType(b)) <==> a == b
  {
    UnknownEventTypeMessageRecoversTag(a);
    UnknownEventTypeMessageRecoversTag(b);
  }

  /** A status error begins "failed to send request [<status>]" and ends with
      the response body verbatim. */
  lemma BadStatusMessageShape(status: int, url: string, body: string)
    ensures var m := Message(BadStatus(status, url, body));
      var p := SendFailurePrefix + "[" + IntToDecimal(status) + "]";
      && |p| + |body| < |m|
      && m[..|p|] == p
      && m[|m| - |body|..] == body
  {
    var m := Message(BadStatus(status, url, body));
    var p := SendFailurePrefix + "[" + IntToDecimal(status) + "]";
    assert m == p + (" " + Quote(url) + " ") + body;
    assert m[..|p|] == p;
    assert m[|m| - |body|..] == body;
  }

  /** The status error of a 500 reply, as in the source's server-error test,
      begins "failed to send request [500]". */
  lemma ServerErrorMessage(url: string, body: string)
    ensures var m := Message(BadStatus(500, url, body));
      var p := "failed to send request [500]";
      |p| <= |m| && m[..|p|] == p
  {
    BadStatusMessageShape(500, url, body);
    ThreeDigits(5, 0, 0);
    assert SendFailurePrefix + "[" + IntToDecimal(500) + "]" == "failed to send request [500]";
  }

  /** A caller can tell a status error from a transport failure by its text:
      the status error has a bracket where the send failure has a quoted URL. */
  lemma BadStatusIsNotSendFailure(status: int, url: string, body: string, other: string, cause: string)
    ensures Message(BadStatus(status, url, body)) != Message(RequestNotSent(other, cause))
  {
    assert Message(BadStatus(status, url, body))[|SendFailurePrefix|] == '[';
    assert Message(RequestNotSent(other, cause))[|SendFailurePrefix|] == '"';
  }
}
