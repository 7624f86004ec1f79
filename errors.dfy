/**
 * The client's error taxonomy. Every kind the library defines is a subkind of
 * Limeade::Error; two further kinds, raised by code the library calls, pass
 * through it unchanged: an endpoint that is not a URI, and a failure of the
 * HTTP connection itself.
 */
module Errors {
  import Text

  datatype Error =
    | InvalidResponse(flaw: Flaw)               // malformed HTTP response or JSON-RPC payload
    | InvalidCredentials(message: string)       // get_session_key answered with a Hash
    | Disconnected                              // a call on a client that holds no session
    | ServerError(code: int, responseError: string)  // a well-formed JSON-RPC error object
    | APIError(methodName: string, status: string)  // an unrecognised status sentinel
    | InvalidUri(message: string)               // URI::InvalidURIError from the endpoint check
    | ConnectionFailed(message: string)         // an HTTP-layer failure, propagated unmodified
  {
    /** The kinds declared by the library itself, all below Limeade::Error. */
    predicate IsLimeadeError() {
      !InvalidUri? && !ConnectionFailed?
    }
  }

  /** What made the transport reject a response, in the order it checks. */
  datatype Flaw =
    | ResponseIsNil
    | BodyIsNil
    | BodyIsEmpty
    | Undecodable(message: string)              // the decoder's own message
    | BodyNotAHash
    | BodyMissingId
    | IdMismatch(got: string, requestId: int)   // `got` is the received id as interpolated
    | BodyMissingResultOrError
    | ErrorNotAHash
    | ErrorMissingCode
    | ErrorCodeNotNumber
    | ErrorMissingMessage
    | ErrorMessageNotString

  /** The message InvalidResponseError is raised with for each flaw. */
  function FlawText(f: Flaw): string
  {
    match f
    case ResponseIsNil => "Response is nil"
    case BodyIsNil => "Response body is nil"
    case BodyIsEmpty => "Response body is empty"
    case Undecodable(m) => m
    case BodyNotAHash => "Response body is not a Hash"
    case BodyMissingId => "Response body is missing the id"
    case IdMismatch(got, id) =>
      "Response id (" + got + ") does not match request id (" + Text.IntText(id) + ")"
    case BodyMissingResultOrError => "Response body must have a result and an error"
    case ErrorNotAHash => "Response error is not a Hash"
    case ErrorMissingCode => "Response error is missing the code"
    case ErrorCodeNotNumber => "Response error code is not a number"
    case ErrorMissingMessage => "Response error is missing the message"
    case ErrorMessageNotString => "Response error message is not a string"
  }

  /**
   * Each check of the transport has a message of its own: flaws of two
   * different kinds, other than a decoder failure, never read the same.
   */
  lemma FlawTextsDiffer(f: Flaw, g: Flaw)
    requires !f.Undecodable? && !g.Undecodable?
    requires f != g && !(f.IdMismatch? && g.IdMismatch?)
    ensures FlawText(f) != FlawText(g)
  {
    if f.IdMismatch? || g.IdMismatch? {
      MismatchShows(f);
      MismatchShows(g);
    }
  }

  /** Of the messages the transport writes itself, only an id mismatch starts with "Response id". */
  lemma MismatchShows(f: Flaw)
    requires !f.Undecodable?
    ensures |FlawText(f)| >= 11 && (FlawText(f)[..11] == "Response id" <==> f.IdMismatch?)
  {
    if f.IdMismatch? {
      assert FlawText(f) == "Response id (" + f.got + ") does not match request id (" + Text.IntText(f.requestId) + ")";
    } else {
      assert FlawText(f)[10] != 'd';
      assert FlawText(f)[..11][10] != "Response id"[10];
    }
  }

  /** The outcome of an operation that either yields a value or raises. */
  datatype Outcome<+T> = Ok(value: T) | Err(error: Error)

  /** The outcome of a guard that either passes or raises. */
  datatype Check = Pass | Fail(error: Error)

  const DisconnectedText := "Attempting to use a disconnected client to the LimeSurvey API"
  const ServerErrorPrefix := "Server error "
  const APIErrorPrefix := "LimeSurvey API '"
  const APIErrorMiddle := "' returned a failure status: "

  /** The exception's message, as each error class builds it. */
  function Message(e: Error): string
  {
    match e
    case InvalidResponse(f) => FlawText(f)
    case InvalidCredentials(m) => m
    case Disconnected => DisconnectedText
    case ServerError(code, m) => ServerErrorPrefix + Text.IntText(code) + ": " + m
    case APIError(name, status) => APIErrorPrefix + name + APIErrorMiddle + status
    case InvalidUri(m) => m
    case ConnectionFailed(m) => m
  }

  /** The text before the first colon of `s` (all of `s` when it has none). */
  function BeforeColon(s: string): (r: string)
    decreases |s|
  {
    if |s| == 0 || s[0] == ':' then "" else [s[0]] + BeforeColon(s[1..])
  }

  /** When `a` has no colon, the text before the first colon of `a + ": " + m` is `a`. */
  lemma {:induction false} BeforeColonOf(a: string, m: string)
    requires forall k :: 0 <= k < |a| ==> a[k] != ':'
    ensures BeforeColon(a + ": " + m) == a
    decreases |a|
  {
    if |a| > 0 {
      assert (a + ": " + m)[1..] == a[1..] + ": " + m;
      BeforeColonOf(a[1..], m);
    }
  }

  /** Splitting `a + ": " + m` at its first colon, when `a` has no colon, gives back `a` and `m`. */
  lemma SplitAtFirstColon(a: string, m: string, b: string, n: string)
    requires forall k :: 0 <= k < |a| ==> a[k] != ':'
    requires forall k :: 0 <= k < |b| ==> b[k] != ':'
    requires a + ": " + m == b + ": " + n
    ensures a == b && m == n
  {
    var s := a + ": " + m;
    BeforeColonOf(a, m);
    BeforeColonOf(b, n);
    assert m == s[|a| + 2..];
    assert n == (b + ": " + n)[|b| + 2..];
  }

  /**
   * A ServerError's message determines its code and its response error: no two
   * distinct server errors print the same text.
   */
  lemma ServerErrorMessageInjective(c1: int, m1: string, c2: int, m2: string)
    requires Message(ServerError(c1, m1)) == Message(ServerError(c2, m2))
    ensures c1 == c2 && m1 == m2
  {
    var t1, t2 := Text.IntText(c1), Text.IntText(c2);
    var s1, s2 := t1 + ": " + m1, t2 + ": " + m2;
    assert Message(ServerError(c1, m1)) == ServerErrorPrefix + s1;
    assert Message(ServerError(c2, m2)) == ServerErrorPrefix + s2;
    assert s1 == Message(ServerError(c1, m1))[|ServerErrorPrefix|..];
    assert s2 == Message(ServerError(c2, m2))[|ServerErrorPrefix|..];
    Text.IntTextHasNoColon(c1);
    Text.IntTextHasNoColon(c2);
    SplitAtFirstColon(t1, m1, t2, m2);
    Text.IntTextInjective(c1, c2);
  }

  /**
   * The message of a ServerError starts with "Server error " and the decimal
   * code and ends with the server's own message; an APIError's message quotes
   * the method name and ends with the status.
   */
  lemma MessageShows(e: Error)
    ensures e.ServerError? ==>
      var m := Message(e);
      var head := ServerErrorPrefix + Text.IntText(e.code) + ": ";
      |head| <= |m| && m[..|head|] == head && m[|head|..] == e.responseError
    ensures e.APIError? ==>
      var m := Message(e);
      var head := APIErrorPrefix + e.methodName + "'";
      |head| <= |m| && m[..|head|] == head && m[|m| - |e.status|..] == e.status
  {
    match e
    case ServerError(code, r) =>
      var head := ServerErrorPrefix + Text.IntText(code) + ": ";
      assert Message(e) == head + r;
    case APIError(name, status) =>
      var head := APIErrorPrefix + name + "'";
      assert Message(e) == head + APIErrorMiddle[1..] + status;
    case _ =>
  }
}
