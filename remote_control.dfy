/**
 * Limeade::Client: a session over the JSON-RPC transport. It holds a session
 * key and a transport handle, prefixes the key to every call, turns the
 * server's informal `status` strings into values or errors, and, when the
 * server reports that the session key is no longer valid, fetches a new key
 * and runs the whole call again.
 *
 * The retry in the source has no bound. Here every round trip consumes one
 * exchange of the scripted Network, and a Network whose script has run out
 * fails the next post, so a server that keeps rejecting the session key ends
 * the call with a ConnectionFailed error once the script is spent. That bound
 * exists only in the model.
 */
module RemoteControl {
  import opened Text
  import opened JsonData
  import opened Errors
  import opened Transport

  const SessionKeyMethod := "get_session_key"
  const ReleaseMethod := "release_session_key"

  /** The arguments of the unauthenticated get_session_key call. */
  function Credentials(username: string, password: string): seq<Json> {
    [JString(username), JString(password)]
  }

  // ---------------------------------------------------------------------------
  // The status table
  // ---------------------------------------------------------------------------

  /** What one result of the server means to the caller. */
  datatype Interpretation =
    | Return(value: Json)     // hand this value to the caller
    | Raise(error: Error)     // fail with this error
    | Reauthenticate          // the session key expired: fetch a new one and call again

  /** `result.is_a?(Hash) && result['status']`. */
  predicate HasStatus(result: Json) {
    result.JObject? && Truthy(Get(result.fields, "status"))
  }

  /** The regexp `/(left to send)|(No candidate tokens)$/`: `$` binds to the second alternative only. */
  predicate LeavesResultRaw(s: string) {
    Contains(s, "left to send") || EndsLine(s, "No candidate tokens")
  }

  /** The regexp `/Invalid surveyid$/i`. */
  predicate NamesUnknownSurvey(s: string) {
    EndsLine(Fold(s), Fold("Invalid surveyid"))
  }

  /** The regexp `/Invalid session key$/i`. */
  predicate SaysSessionExpired(s: string) {
    EndsLine(Fold(s), Fold("Invalid session key"))
  }

  /** The `case` on `result['status']` in process_request; its first matching row wins. */
  function Interpret(name: string, result: Json, inspect: Json -> string): (r: Interpretation)
    ensures !HasStatus(result) ==> r == Return(result)
    ensures r.Raise? ==> r.error.APIError? && r.error.methodName == name
  {
    if !HasStatus(result) then Return(result)
    else
      var status := result.fields["status"];
      if status == JString("OK") then Return(JBool(true))
      else if status == JString("No surveys found") then Return(JArray([]))
      else if status == JString("No Tokens found") then Return(JArray([]))
      else if status == JString("No survey participants table") then Return(JBool(false))
      else if status.JString? && LeavesResultRaw(status.s) then Return(result)
      else if status.JString? && NamesUnknownSurvey(status.s) then Return(JNull)
      else if status.JString? && SaysSessionExpired(status.s) then Reauthenticate
      else Raise(APIError(name, ToS(status, inspect)))
  }

  /** A result that is not a Hash, or a Hash without a truthy status, passes through unchanged. */
  lemma PassThrough(name: string, result: Json, inspect: Json -> string)
    requires !result.JObject? || "status" !in result.fields || !Truthy(result.fields["status"])
    ensures Interpret(name, result, inspect) == Return(result)
  {
  }

  /** The four statuses matched exactly, and case-sensitively, before any pattern. */
  lemma ExactStatusRows(name: string, fields: map<string, Json>, inspect: Json -> string)
    requires "status" in fields
    ensures fields["status"] == JString("OK") ==>
      Interpret(name, JObject(fields), inspect) == Return(JBool(true))
    ensures fields["status"] == JString("No surveys found") ==>
      Interpret(name, JObject(fields), inspect) == Return(JArray([]))
    ensures fields["status"] == JString("No Tokens found") ==>
      Interpret(name, JObject(fields), inspect) == Return(JArray([]))
    ensures fields["status"] == JString("No survey participants table") ==>
      Interpret(name, JObject(fields), inspect) == Return(JBool(false))
    ensures fields["status"] == JString("ok") ==>
      Interpret(name, JObject(fields), inspect) == Raise(APIError(name, "ok"))
  {
    if fields["status"] == JString("ok") {
      var s := "ok";
      assert !Contains(s, "left to send") && !EndsLine(s, "No candidate tokens");
      assert !EndsLine(Fold(s), Fold("Invalid surveyid"));
      assert !EndsLine(Fold(s), Fold("Invalid session key"));
    }
  }

  /** The statuses the table matches exactly, and case-sensitively, before any pattern. */
  const ExactStatuses: set<string> := {"OK", "No surveys found", "No Tokens found", "No survey participants table"}

  /** For any other String status the patterns decide, in their order. */
  lemma PatternRows(name: string, fields: map<string, Json>, s: string, inspect: Json -> string)
    requires "status" in fields && fields["status"] == JString(s) && s !in ExactStatuses
    ensures Interpret(name, JObject(fields), inspect)
         == if LeavesResultRaw(s) then Return(JObject(fields))
            else if NamesUnknownSurvey(s) then Return(JNull)
            else if SaysSessionExpired(s) then Reauthenticate
            else Raise(APIError(name, s))
  {
  }

  lemma FoldKeepsLines(s: string)
    requires forall k :: 0 <= k < |s| ==> s[k] != '\n'
    ensures forall k :: 0 <= k < |Fold(s)| ==> Fold(s)[k] != '\n'
  {
  }

  /** "left to send" anywhere in the status, on any line, hands back the whole result Hash. */
  lemma LeftToSendKeepsResult(name: string, fields: map<string, Json>, s: string, inspect: Json -> string)
    requires "status" in fields && fields["status"] == JString(s) && s !in ExactStatuses
    requires exists i :: OccursAt(s, "left to send", i)
    ensures Interpret(name, JObject(fields), inspect) == Return(JObject(fields))
  {
    PatternRows(name, fields, s, inspect);
    ContainsMeans(s, "left to send");
  }

  /** A one-line status ending in "No candidate tokens" hands back the whole result Hash. */
  lemma NoCandidateTokensKeepsResult(name: string, fields: map<string, Json>, s: string, inspect: Json -> string)
    requires "status" in fields && fields["status"] == JString(s) && s !in ExactStatuses
    requires forall k :: 0 <= k < |s| ==> s[k] != '\n'
    requires EndsWith(s, "No candidate tokens")
    ensures Interpret(name, JObject(fields), inspect) == Return(JObject(fields))
  {
    PatternRows(name, fields, s, inspect);
    EndsLineOnOneLine(s, "No candidate tokens");
  }

  /** On one line, a case-insensitive suffix is what the `/i` regexp anchored by `$` matches. */
  lemma FoldedSuffixOnOneLine(s: string, pat: string)
    requires forall k :: 0 <= k < |s| ==> s[k] != '\n'
    ensures EndsLine(Fold(s), Fold(pat)) <==> EndsWith(Fold(s), Fold(pat))
  {
    FoldKeepsLines(s);
    EndsLineOnOneLine(Fold(s), Fold(pat));
  }

  /** A string ending in `pat` ends in the last character of `pat`. */
  lemma LastOfSuffix(s: string, pat: string)
    requires |pat| > 0 && EndsWith(s, pat)
    ensures s[|s| - 1] == pat[|pat| - 1]
  {
    assert s[|s| - |pat|..][|pat| - 1] == s[|s| - 1];
  }

  lemma UnknownSurveyPatternOnOneLine(s: string)
    requires forall k :: 0 <= k < |s| ==> s[k] != '\n'
    requires !Contains(s, "left to send") && EndsWith(Fold(s), Fold("Invalid surveyid"))
    ensures !LeavesResultRaw(s) && NamesUnknownSurvey(s)
  {
    FoldedSuffixOnOneLine(s, "Invalid surveyid");
    EndsLineOnOneLine(s, "No candidate tokens");
    LastOfSuffix(Fold(s), Fold("Invalid surveyid"));
    if EndsWith(s, "No candidate tokens") {
      LastOfSuffix(s, "No candidate tokens");
      assert false;
    }
  }

  lemma ExpiredSessionPatternOnOneLine(s: string)
    requires forall k :: 0 <= k < |s| ==> s[k] != '\n'
    requires !Contains(s, "left to send") && EndsWith(Fold(s), Fold("Invalid session key"))
    ensures !LeavesResultRaw(s) && !NamesUnknownSurvey(s) && SaysSessionExpired(s)
  {
    FoldedSuffixOnOneLine(s, "Invalid surveyid");
    FoldedSuffixOnOneLine(s, "Invalid session key");
    EndsLineOnOneLine(s, "No candidate tokens");
    LastOfSuffix(Fold(s), Fold("Invalid session key"));
    if EndsWith(s, "No candidate tokens") {
      LastOfSuffix(s, "No candidate tokens");
      assert false;
    }
    if EndsWith(Fold(s), Fold("Invalid surveyid")) {
      LastOfSuffix(Fold(s), Fold("Invalid surveyid"));
      assert false;
    }
  }

  /** A one-line status ending in "Invalid surveyid", in any letter case, yields nil unless it says "left to send". */
  lemma UnknownSurveyIsNil(name: string, fields: map<string, Json>, s: string, inspect: Json -> string)
    requires "status" in fields && fields["status"] == JString(s) && s !in ExactStatuses
    requires forall k :: 0 <= k < |s| ==> s[k] != '\n'
    requires !Contains(s, "left to send") && EndsWith(Fold(s), Fold("Invalid surveyid"))
    ensures Interpret(name, JObject(fields), inspect) == Return(JNull)
  {
    PatternRows(name, fields, s, inspect);
    UnknownSurveyPatternOnOneLine(s);
  }

  /**
   * A one-line status ending in "Invalid session key", in any letter case,
   * sends the client to fetch a new session key unless it says "left to send".
   */
  lemma SessionExpiredReauthenticates(name: string, fields: map<string, Json>, s: string, inspect: Json -> string)
    requires "status" in fields && fields["status"] == JString(s) && s !in ExactStatuses
    requires forall k :: 0 <= k < |s| ==> s[k] != '\n'
    requires !Contains(s, "left to send") && EndsWith(Fold(s), Fold("Invalid session key"))
    ensures Interpret(name, JObject(fields), inspect) == Reauthenticate
  {
    PatternRows(name, fields, s, inspect);
    ExpiredSessionPatternOnOneLine(s);
  }

  /** The patterns as a reader states them: occurrences, optionally at a line end, optionally case-folded. */
  ghost predicate RawPattern(s: string) {
    (exists i :: OccursAt(s, "left to send", i)) || (exists i :: OccursAtLineEndAt(s, "No candidate tokens", i))
  }

  ghost predicate UnknownSurveyPattern(s: string) {
    exists i :: OccursAtLineEndAt(Fold(s), Fold("Invalid surveyid"), i)
  }

  ghost predicate ExpiredSessionPattern(s: string) {
    exists i :: OccursAtLineEndAt(Fold(s), Fold("Invalid session key"), i)
  }

  /** The statuses the table recognises. */
  ghost predicate Recognised(status: Json) {
    && status.JString?
    && (status.s in ExactStatuses || RawPattern(status.s) || UnknownSurveyPattern(status.s)
        || ExpiredSessionPattern(status.s))
  }

  /** The matching functions find exactly the occurrences the patterns describe. */
  lemma PatternsMean(s: string)
    ensures LeavesResultRaw(s) <==> RawPattern(s)
    ensures NamesUnknownSurvey(s) <==> UnknownSurveyPattern(s)
    ensures SaysSessionExpired(s) <==> ExpiredSessionPattern(s)
  {
    ContainsMeans(s, "left to send");
    EndsLineMeans(s, "No candidate tokens");
    EndsLineMeans(Fold(s), Fold("Invalid surveyid"));
    EndsLineMeans(Fold(s), Fold("Invalid session key"));
  }

  /**
   * The table's last row: a call fails with APIError, carrying the method name
   * and the status, exactly when the result has a truthy status the table does
   * not recognise; and APIError is the only error the table raises.
   */
  lemma UnrecognisedStatusFails(name: string, result: Json, inspect: Json -> string)
    ensures Interpret(name, result, inspect).Raise? <==> HasStatus(result) && !Recognised(result.fields["status"])
    ensures Interpret(name, result, inspect).Raise? ==>
      Interpret(name, result, inspect).error == APIError(name, ToS(result.fields["status"], inspect))
  {
    if HasStatus(result) {
      var status := result.fields["status"];
      if status.JString? && status.s !in ExactStatuses {
        PatternRows(name, result.fields, status.s, inspect);
        PatternsMean(status.s);
      }
    }
  }

  // ---------------------------------------------------------------------------
  // Authentication
  // ---------------------------------------------------------------------------

  /** The message of InvalidCredentialsError: the Hash's status, or the inspected Hash without one. */
  function CredentialsMessage(fields: map<string, Json>, inspect: Json -> string): string {
    var status := Get(fields, "status");
    if Truthy(status) then ToS(status, inspect) else inspect(JObject(fields))
  }

  /** get_session_key's check on what `invoke` returned: a Hash means the credentials were refused. */
  function Authenticated(invoked: Outcome<Json>, inspect: Json -> string): (r: Outcome<Json>)
    ensures r.Ok? <==> invoked.Ok? && !invoked.value.JObject?
    ensures r.Ok? ==> r == invoked
    ensures invoked.Err? ==> r == invoked
    ensures invoked.Ok? && invoked.value.JObject? ==>
      r == Err(InvalidCredentials(CredentialsMessage(invoked.value.fields, inspect)))
  {
    match invoked
    case Err(e) => Err(e)
    case Ok(v) =>
      if v.JObject? then Err(InvalidCredentials(CredentialsMessage(v.fields, inspect))) else Ok(v)
  }

  /** A refusal carrying a String status reports that status; one without a status reports the inspected Hash. */
  lemma RefusalMessage(fields: map<string, Json>, inspect: Json -> string)
    ensures "status" in fields && fields["status"].JString? ==>
      Authenticated(Ok(JObject(fields)), inspect) == Err(InvalidCredentials(fields["status"].s))
    ensures "status" !in fields ==>
      Authenticated(Ok(JObject(fields)), inspect) == Err(InvalidCredentials(inspect(JObject(fields))))
  {
  }

  // ---------------------------------------------------------------------------
  // The request loop, as a function of the state it starts from
  // ---------------------------------------------------------------------------

  /** connected?: the session key is truthy and the transport is held. */
  predicate HoldsSession(session: Json, transport: JsonRpc?) {
    Truthy(session) && transport != null
  }

  /** The end of one process_request: its outcome, the session key then held, and the network's state. */
  datatype Run = Run(outcome: Outcome<Json>, session: Json, pending: seq<Exchange>, posted: seq<Post>)

  /**
   * process_request from a given state: a client that holds no session fails
   * at once; a connected one runs a Round.
   */
  function Dispatch(transport: JsonRpc?, username: string, password: string, session: Json,
                    pending: seq<Exchange>, name: string, args: seq<Json>): Run
    decreases |pending|, 1
  {
    if !HoldsSession(session, transport) then Run(Err(Disconnected), session, pending, [])
    else Round(transport, username, password, session, pending, name, args)
  }

  /**
   * One pass through process_request's body: invoke the method with the
   * session key first and interpret the status; on an expired session fetch a
   * new key, keep it, and dispatch the call again from there.
   */
  function Round(transport: JsonRpc, username: string, password: string, session: Json,
                 pending: seq<Exchange>, name: string, args: seq<Json>): Run
    decreases |pending|, 0
  {
    var first := Call(transport.uri, transport.rt, pending, name, [session] + args);
    match first.outcome
    case Err(e) => Run(Err(e), session, first.pending, first.posted)
    case Ok(v) =>
      match Interpret(name, v, transport.rt.inspect)
      case Return(w) => Run(Ok(w), session, first.pending, first.posted)
      case Raise(e) => Run(Err(e), session, first.pending, first.posted)
      case Reauthenticate =>
        var auth := Call(transport.uri, transport.rt, first.pending, SessionKeyMethod,
                         Credentials(username, password));
        match Authenticated(auth.outcome, transport.rt.inspect)
        case Err(e) => Run(Err(e), session, auth.pending, first.posted + auth.posted)
        case Ok(key) =>
          var rest := Dispatch(transport, username, password, key, auth.pending, name, args);
          Run(rest.outcome, rest.session, rest.pending, first.posted + auth.posted + rest.posted)
  }

  // The three ways one round of Dispatch can end, each unfolded on its own.

  lemma DispatchStops(transport: JsonRpc, username: string, password: string, session: Json,
                      pending: seq<Exchange>, name: string, args: seq<Json>)
    requires HoldsSession(session, transport)
    requires var first := Call(transport.uri, transport.rt, pending, name, [session] + args);
      first.outcome.Err? || !Interpret(name, first.outcome.value, transport.rt.inspect).Reauthenticate?
    ensures var first := Call(transport.uri, transport.rt, pending, name, [session] + args);
      var d := Dispatch(transport, username, password, session, pending, name, args);
      && d.session == session && d.pending == first.pending && d.posted == first.posted
      && (first.outcome.Err? ==> d.outcome == first.outcome)
      && (first.outcome.Ok? ==>
            var verdict := Interpret(name, first.outcome.value, transport.rt.inspect);
            (verdict.Return? ==> d.outcome == Ok(verdict.value)) && (verdict.Raise? ==> d.outcome == Err(verdict.error)))
  {
  }

  lemma DispatchAuthFails(transport: JsonRpc, username: string, password: string, session: Json,
                          pending: seq<Exchange>, name: string, args: seq<Json>)
    requires HoldsSession(session, transport)
    requires var first := Call(transport.uri, transport.rt, pending, name, [session] + args);
      var auth := Call(transport.uri, transport.rt, first.pending, SessionKeyMethod, Credentials(username, password));
      && first.outcome.Ok? && Interpret(name, first.outcome.value, transport.rt.inspect).Reauthenticate?
      && Authenticated(auth.outcome, transport.rt.inspect).Err?
    ensures var first := Call(transport.uri, transport.rt, pending, name, [session] + args);
      var auth := Call(transport.uri, transport.rt, first.pending, SessionKeyMethod, Credentials(username, password));
      Dispatch(transport, username, password, session, pending, name, args)
        == Run(Authenticated(auth.outcome, transport.rt.inspect), session, auth.pending, first.posted + auth.posted)
  {
  }

  lemma DispatchRenews(transport: JsonRpc, username: string, password: string, session: Json,
                       pending: seq<Exchange>, name: string, args: seq<Json>)
    requires HoldsSession(session, transport)
    requires var first := Call(transport.uri, transport.rt, pending, name, [session] + args);
      var auth := Call(transport.uri, transport.rt, first.pending, SessionKeyMethod, Credentials(username, password));
      && first.outcome.Ok? && Interpret(name, first.outcome.value, transport.rt.inspect).Reauthenticate?
      && Authenticated(auth.outcome, transport.rt.inspect).Ok?
    ensures var first := Call(transport.uri, transport.rt, pending, name, [session] + args);
      var auth := Call(transport.uri, transport.rt, first.pending, SessionKeyMethod, Credentials(username, password));
      var key := Authenticated(auth.outcome, transport.rt.inspect).value;
      var rest := Dispatch(transport, username, password, key, auth.pending, name, args);
      Dispatch(transport, username, password, session, pending, name, args)
        == Run(rest.outcome, rest.session, rest.pending, first.posted + auth.posted + rest.posted)
  {
  }

  /** Without a session nothing is posted: the call fails with Disconnected and changes nothing. */
  lemma DisconnectedFailsFirst(transport: JsonRpc?, username: string, password: string, session: Json,
                               pending: seq<Exchange>, name: string, args: seq<Json>)
    requires !HoldsSession(session, transport)
    ensures Dispatch(transport, username, password, session, pending, name, args)
         == Run(Err(Disconnected), session, pending, [])
  {
  }

  /** When connected, the first request posted is the method with the session key before the caller's arguments. */
  lemma SessionKeyGoesFirst(transport: JsonRpc?, username: string, password: string, session: Json,
                            pending: seq<Exchange>, name: string, args: seq<Json>)
    requires HoldsSession(session, transport) && |pending| > 0
    ensures var r := Dispatch(transport, username, password, session, pending, name, args);
      |r.posted| > 0 && r.posted[0].uri == transport.uri
      && RequestOf(r.posted[0].request) == Some(Request(name, [session] + args, pending[0].id))
  {
  }

  /**
   * Session expiry is absorbed: after a status saying the key is invalid, one
   * get_session_key call with the credentials follows; if it fails its error is
   * the outcome, otherwise the new key is kept and the same method and
   * arguments are dispatched again, and the caller sees that outcome only. A
   * new key that is nil or false leaves the client unconnected, so the re-run
   * fails with Disconnected.
   */
  lemma SessionExpiryRetries(transport: JsonRpc?, username: string, password: string, session: Json,
                             pending: seq<Exchange>, name: string, args: seq<Json>)
    requires HoldsSession(session, transport)
    requires var first := Call(transport.uri, transport.rt, pending, name, [session] + args);
      first.outcome.Ok? && Interpret(name, first.outcome.value, transport.rt.inspect) == Reauthenticate
    ensures
      var first := Call(transport.uri, transport.rt, pending, name, [session] + args);
      var auth := Call(transport.uri, transport.rt, first.pending, SessionKeyMethod, Credentials(username, password));
      var key := Authenticated(auth.outcome, transport.rt.inspect);
      var r := Dispatch(transport, username, password, session, pending, name, args);
      && first.pending == pending[1..]
      && (|pending| >= 2 ==>
            RequestOf(auth.posted[0].request) == Some(Request(SessionKeyMethod, Credentials(username, password), pending[1].id)))
      && (key.Err? ==> r == Run(key, session, auth.pending, first.posted + auth.posted))
      && (key.Ok? ==>
            var again := Dispatch(transport, username, password, key.value, auth.pending, name, args);
            r == Run(again.outcome, again.session, again.pending, first.posted + auth.posted + again.posted))
      && (key.Ok? && !Truthy(key.value) ==> r.outcome == Err(Disconnected))
  {
    var first := Call(transport.uri, transport.rt, pending, name, [session] + args);
    var auth := Call(transport.uri, transport.rt, first.pending, SessionKeyMethod, Credentials(username, password));
    var key := Authenticated(auth.outcome, transport.rt.inspect);
    if key.Err? {
      DispatchAuthFails(transport, username, password, session, pending, name, args);
    } else {
      DispatchRenews(transport, username, password, session, pending, name, args);
      if !Truthy(key.value) {
        DisconnectedFailsFirst(transport, username, password, key.value, auth.pending, name, args);
      }
    }
  }

  /** Every round trip consumes one exchange of the script and posts exactly one request. */
  lemma {:induction false} DispatchConsumes(transport: JsonRpc?, username: string, password: string, session: Json,
                                            pending: seq<Exchange>, name: string, args: seq<Json>)
    ensures var r := Dispatch(transport, username, password, session, pending, name, args);
      EndsWith(pending, r.pending) && |r.posted| == |pending| - |r.pending|
    decreases |pending|, 1
  {
    if !HoldsSession(session, transport) {
      DisconnectedFailsFirst(transport, username, password, session, pending, name, args);
    } else {
      var first := Call(transport.uri, transport.rt, pending, name, [session] + args);
      if first.outcome.Err? || !Interpret(name, first.outcome.value, transport.rt.inspect).Reauthenticate? {
        CallConsumes(transport.uri, transport.rt, pending, name, [session] + args);
        DispatchStops(transport, username, password, session, pending, name, args);
      } else {
        RenewalConsumes(transport, username, password, session, pending, name, args);
      }
    }
  }

  /** DispatchConsumes for a round that renews the session key. */
  lemma {:induction false} RenewalConsumes(transport: JsonRpc, username: string, password: string, session: Json,
                                           pending: seq<Exchange>, name: string, args: seq<Json>)
    requires HoldsSession(session, transport)
    requires var first := Call(transport.uri, transport.rt, pending, name, [session] + args);
      first.outcome.Ok? && Interpret(name, first.outcome.value, transport.rt.inspect).Reauthenticate?
    ensures var r := Dispatch(transport, username, password, session, pending, name, args);
      EndsWith(pending, r.pending) && |r.posted| == |pending| - |r.pending|
    decreases |pending|, 0
  {
    var first := Call(transport.uri, transport.rt, pending, name, [session] + args);
    var auth := Call(transport.uri, transport.rt, first.pending, SessionKeyMethod, Credentials(username, password));
    CallConsumes(transport.uri, transport.rt, pending, name, [session] + args);
    CallConsumes(transport.uri, transport.rt, first.pending, SessionKeyMethod, Credentials(username, password));
    SuffixOfSuffix(pending, first.pending, auth.pending);
    var key := Authenticated(auth.outcome, transport.rt.inspect);
    if key.Err? {
      DispatchAuthFails(transport, username, password, session, pending, name, args);
    } else {
      DispatchRenews(transport, username, password, session, pending, name, args);
      DispatchConsumes(transport, username, password, key.value, auth.pending, name, args);
      var rest := Dispatch(transport, username, password, key.value, auth.pending, name, args);
      SuffixOfSuffix(pending, auth.pending, rest.pending);
    }
  }

  /** A call's error is one of these kinds; an APIError names the method called. */
  ghost predicate RaisableBy(e: Error, name: string) {
    || e.InvalidResponse? || e.ServerError? || e.ConnectionFailed? || e.InvalidCredentials? || e.Disconnected?
    || (e.APIError? && e.methodName == name)
  }

  /**
   * What a call can raise: the transport's errors, a connection failure, an
   * APIError naming the very method called, a refusal of the credentials while
   * renewing the session, or Disconnected; never an invalid-URI error, which
   * only construction raises.
   */
  lemma {:induction false} DispatchRaises(transport: JsonRpc?, username: string, password: string, session: Json,
                                          pending: seq<Exchange>, name: string, args: seq<Json>)
    ensures var r := Dispatch(transport, username, password, session, pending, name, args);
      r.outcome.Err? ==> RaisableBy(r.outcome.error, name)
    decreases |pending|, 1
  {
    if !HoldsSession(session, transport) {
      DisconnectedFailsFirst(transport, username, password, session, pending, name, args);
    } else {
      var first := Call(transport.uri, transport.rt, pending, name, [session] + args);
      if first.outcome.Err? || !Interpret(name, first.outcome.value, transport.rt.inspect).Reauthenticate? {
        DispatchStops(transport, username, password, session, pending, name, args);
        if first.outcome.Ok? {
          UnrecognisedStatusFails(name, first.outcome.value, transport.rt.inspect);
        }
      } else {
        RenewalRaises(transport, username, password, session, pending, name, args);
      }
    }
  }

  /** DispatchRaises for a round that renews the session key. */
  lemma {:induction false} RenewalRaises(transport: JsonRpc, username: string, password: string, session: Json,
                                         pending: seq<Exchange>, name: string, args: seq<Json>)
    requires HoldsSession(session, transport)
    requires var first := Call(transport.uri, transport.rt, pending, name, [session] + args);
      first.outcome.Ok? && Interpret(name, first.outcome.value, transport.rt.inspect).Reauthenticate?
    ensures var r := Dispatch(transport, username, password, session, pending, name, args);
      r.outcome.Err? ==> RaisableBy(r.outcome.error, name)
    decreases |pending|, 0
  {
    var first := Call(transport.uri, transport.rt, pending, name, [session] + args);
    var auth := Call(transport.uri, transport.rt, first.pending, SessionKeyMethod, Credentials(username, password));
    var key := Authenticated(auth.outcome, transport.rt.inspect);
    if key.Err? {
      DispatchAuthFails(transport, username, password, session, pending, name, args);
    } else {
      DispatchRenews(transport, username, password, session, pending, name, args);
      DispatchRaises(transport, username, password, key.value, auth.pending, name, args);
    }
  }

  /** One invocation uses up the first exchange, if any, and posts one request per exchange used. */
  lemma CallConsumes(uri: string, rt: Runtime, pending: seq<Exchange>, name: string, args: seq<Json>)
    ensures var t := Call(uri, rt, pending, name, args);
      EndsWith(pending, t.pending) && |t.posted| == |pending| - |t.pending|
  {
  }

  /** A suffix of a suffix of `p` is a suffix of `p`. */
  lemma SuffixOfSuffix<T>(p: seq<T>, q: seq<T>, r: seq<T>)
    requires EndsWith(p, q) && EndsWith(q, r)
    ensures EndsWith(p, r)
  {
    assert forall k :: 0 <= k < |r| ==> r[k] == q[|q| - |r| + k] == p[|p| - |r| + k];
  }

  /** A request for `name` whose parameters are some session key followed by `args`. */
  ghost predicate MethodPost(p: Post, uri: string, name: string, args: seq<Json>) {
    && p.uri == uri && RequestOf(p.request).Some?
    && var q := RequestOf(p.request).value;
       q.methodName == name && |q.params| == |args| + 1 && q.params[1..] == args
  }

  /** A get_session_key request carrying the credentials. */
  ghost predicate AuthPost(p: Post, uri: string, username: string, password: string) {
    && p.uri == uri && RequestOf(p.request).Some?
    && var q := RequestOf(p.request).value;
       q.methodName == SessionKeyMethod && q.params == Credentials(username, password)
  }

  /** A method request, then a get_session_key request, then the same again, however far the list goes. */
  ghost predicate Alternating(posted: seq<Post>, uri: string, name: string, args: seq<Json>,
                              username: string, password: string)
    decreases |posted|
  {
    || |posted| == 0
    || (&& MethodPost(posted[0], uri, name, args)
        && (|posted| == 1
            || (AuthPost(posted[1], uri, username, password)
                && Alternating(posted[2..], uri, name, args, username, password))))
  }

  /** The same alternation, position by position: even positions hold the method, odd ones get_session_key. */
  lemma {:induction false} AlternatingAt(posted: seq<Post>, uri: string, name: string, args: seq<Json>,
                                         username: string, password: string)
    requires Alternating(posted, uri, name, args, username, password)
    ensures forall k :: 0 <= k < |posted| ==>
      if k % 2 == 0 then MethodPost(posted[k], uri, name, args) else AuthPost(posted[k], uri, username, password)
    decreases |posted|
  {
    if |posted| >= 2 {
      var rest := posted[2..];
      AlternatingAt(rest, uri, name, args, username, password);
      forall k | 2 <= k < |posted|
        ensures posted[k] == rest[k - 2] && (k % 2 == 0 <==> (k - 2) % 2 == 0)
      {
      }
    }
  }

  /**
   * The requests one call posts alternate: the method itself, with the
   * caller's arguments after a session key, then get_session_key with the
   * credentials, then the method again, and so on; all to the transport's URI.
   */
  lemma {:induction false} DispatchAlternates(transport: JsonRpc?, username: string, password: string, session: Json,
                                              pending: seq<Exchange>, name: string, args: seq<Json>)
    requires transport != null
    ensures Alternating(Dispatch(transport, username, password, session, pending, name, args).posted,
                        transport.uri, name, args, username, password)
    decreases |pending|
  {
    var uri := transport.uri;
    var r := Dispatch(transport, username, password, session, pending, name, args);
    if !HoldsSession(session, transport) {
      DisconnectedFailsFirst(transport, username, password, session, pending, name, args);
    } else if |pending| == 0 {
      DispatchStops(transport, username, password, session, pending, name, args);
    } else {
      var first := Call(uri, transport.rt, pending, name, [session] + args);
      var a := first.posted[0];
      assert ([session] + args)[1..] == args;
      assert MethodPost(a, uri, name, args);
      if first.outcome.Err? || !Interpret(name, first.outcome.value, transport.rt.inspect).Reauthenticate? {
        DispatchStops(transport, username, password, session, pending, name, args);
      } else {
        var auth := Call(uri, transport.rt, first.pending, SessionKeyMethod, Credentials(username, password));
        var key := Authenticated(auth.outcome, transport.rt.inspect);
        if key.Err? {
          DispatchAuthFails(transport, username, password, session, pending, name, args);
          if |auth.posted| > 0 {
            assert AuthPost(auth.posted[0], uri, username, password);
            assert r.posted[2..] == [];
          }
        } else {
          DispatchRenews(transport, username, password, session, pending, name, args);
          var rest := Dispatch(transport, username, password, key.value, auth.pending, name, args);
          DispatchAlternates(transport, username, password, key.value, auth.pending, name, args);
          assert AuthPost(auth.posted[0], uri, username, password);
          assert r.posted[2..] == rest.posted;
        }
      }
    }
  }

  lemma Associative<T>(a: seq<T>, b: seq<T>, c: seq<T>)
    ensures (a + b) + c == a + (b + c)
  {
  }

  // ---------------------------------------------------------------------------
  // The client object
  // ---------------------------------------------------------------------------

  class Client {
    var transport: JsonRpc?
    var sessionKey: Json
    const username: string
    const password: string

    /** connected?. */
    predicate Connected()
      reads this
    {
      HoldsSession(sessionKey, transport)
    }

    /** The fields `initialize` sets before it asks for a session key. */
    constructor (transport: JsonRpc, username: string, password: string)
      ensures this.transport == transport && this.username == username && this.password == password
      ensures sessionKey == JNull
    {
      this.transport := transport;
      this.username := username;
      this.password := password;
      sessionKey := JNull;
    }

    /**
     * Client.new: build the transport (rejecting an endpoint that is not a URI),
     * then authenticate with the credentials; a Hash answer refuses the
     * credentials, anything else becomes the session key.
     */
    static method Open(endpoint: string, username: string, password: string,
                       retryOptions: Option<map<string, Json>>, rt: Runtime, net: Network)
      returns (r: Outcome<Client>)
      modifies net
      ensures rt.parseUri(endpoint).Unparsable? ==>
        && r == Err(InvalidUri(rt.parseUri(endpoint).message))
        && net.pending == old(net.pending) && net.posted == old(net.posted)
      ensures rt.parseUri(endpoint).Parsed? ==>
        var uri := rt.parseUri(endpoint).value;
        var auth := Call(uri, rt, old(net.pending), SessionKeyMethod, Credentials(username, password));
        var key := Authenticated(auth.outcome, rt.inspect);
        && net.pending == auth.pending && net.posted == old(net.posted) + auth.posted
        && (key.Err? ==> r == Err(key.error))
        && (key.Ok? ==>
              && r.Ok? && fresh(r.value) && r.value.sessionKey == key.value
              && r.value.username == username && r.value.password == password
              && r.value.transport != null && fresh(r.value.transport)
              && r.value.transport.uri == uri && r.value.transport.rt == rt
              && r.value.transport.retryOptions == (if retryOptions.None? then map[] else retryOptions.value))
    {
      var made := JsonRpc.New(endpoint, retryOptions, rt);
      if made.Err? {
        return Err(made.error);
      }
      var client := new Client(made.value, username, password);
      var key := client.GetSessionKey(net);
      if key.Err? {
        return Err(key.error);
      }
      client.sessionKey := key.value;
      return Ok(client);
    }

    /** get_session_key: invoke it with the credentials and no session key; refuse a Hash answer. */
    method GetSessionKey(net: Network) returns (r: Outcome<Json>)
      requires transport != null
      modifies net
      ensures var auth := Call(transport.uri, transport.rt, old(net.pending), SessionKeyMethod,
                               Credentials(username, password));
        && r == Authenticated(auth.outcome, transport.rt.inspect)
        && net.pending == auth.pending && net.posted == old(net.posted) + auth.posted
    {
      var response := transport.Invoke(net, SessionKeyMethod, Credentials(username, password));
      if response.Ok? && response.value.JObject? {
        return Err(InvalidCredentials(CredentialsMessage(response.value.fields, transport.rt.inspect)));
      }
      return response;
    }

    /** release_session_key: invoke it with the session key, bypassing the status table. */
    method ReleaseSessionKey(net: Network) returns (r: Outcome<Json>)
      requires transport != null
      modifies net
      ensures var release := Call(transport.uri, transport.rt, old(net.pending), ReleaseMethod, [sessionKey]);
        r == release.outcome && net.pending == release.pending && net.posted == old(net.posted) + release.posted
    {
      r := transport.Invoke(net, ReleaseMethod, [sessionKey]);
    }

    /**
     * disconnect: when connected, release the key at the server and then drop
     * both the key and the transport, answering true; a failed release raises
     * and leaves the client connected. When not connected, answer false and
     * change nothing. Either way the client is never connected again after a
     * disconnect that answered.
     */
    method Disconnect(net: Network) returns (r: Outcome<bool>)
      modifies this, net
      ensures !old(Connected()) ==>
        && r == Ok(false) && transport == old(transport) && sessionKey == old(sessionKey)
        && net.pending == old(net.pending) && net.posted == old(net.posted)
      ensures old(Connected()) ==>
        var release := Call(old(transport).uri, old(transport).rt, old(net.pending), ReleaseMethod, [old(sessionKey)]);
        && net.pending == release.pending && net.posted == old(net.posted) + release.posted
        && (release.outcome.Err? ==>
              r == Err(release.outcome.error) && transport == old(transport) && sessionKey == old(sessionKey))
        && (release.outcome.Ok? ==> r == Ok(true) && transport == null && sessionKey == JNull)
      ensures r.Ok? ==> !Connected()
    {
      if !Connected() {
        return Ok(false);
      }
      var released := ReleaseSessionKey(net);
      if released.Err? {
        return Err(released.error);
      }
      transport := null;
      sessionKey := JNull;
      return Ok(true);
    }

    /**
     * One pass through process_request's body for a connected client: the
     * outcome of the call when the pass settles it, or None after the session
     * was renewed, when the rest of the call is a dispatch from the new state.
     */
    method Attempt(net: Network, name: string, args: seq<Json>) returns (settled: Option<Outcome<Json>>)
      requires Connected()
      modifies this, net
      ensures transport == old(transport)
      ensures |net.posted| >= |old(net.posted)| && net.posted == old(net.posted) + net.posted[|old(net.posted)|..]
      ensures settled.Some? ==>
        var run := Dispatch(old(transport), username, password, old(sessionKey), old(net.pending), name, args);
        && settled.value == run.outcome && sessionKey == run.session
        && net.pending == run.pending && net.posted == old(net.posted) + run.posted
      ensures settled.None? ==>
        && |net.pending| < |old(net.pending)|
        && var now := Dispatch(transport, username, password, sessionKey, net.pending, name, args);
           Dispatch(old(transport), username, password, old(sessionKey), old(net.pending), name, args)
             == Run(now.outcome, now.session, now.pending, net.posted[|old(net.posted)|..] + now.posted)
    {
      ghost var session, pending := sessionKey, net.pending;
      ghost var first := Call(transport.uri, transport.rt, pending, name, [session] + args);
      var result := transport.Invoke(net, name, [sessionKey] + args);
      assert net.posted[|old(net.posted)|..] == first.posted;
      if result.Err? {
        DispatchStops(transport, username, password, session, pending, name, args);
        return Some(result);
      }
      var verdict := Interpret(name, result.value, transport.rt.inspect);
      if !verdict.Reauthenticate? {
        DispatchStops(transport, username, password, session, pending, name, args);
        return Some(if verdict.Return? then Ok(verdict.value) else Err(verdict.error));
      }
      var key := GetSessionKey(net);
      ghost var auth := Call(transport.uri, transport.rt, first.pending, SessionKeyMethod, Credentials(username, password));
      assert net.posted[|old(net.posted)|..] == first.posted + auth.posted;
      if key.Err? {
        DispatchAuthFails(transport, username, password, session, pending, name, args);
        return Some(Err(key.error));
      }
      DispatchRenews(transport, username, password, session, pending, name, args);
      sessionKey := key.value;
      return None;
    }

    /**
     * process_request: the call as Dispatch describes it from the state the
     * client is in; the session key is the one it ends with, and the transport
     * is never replaced.
     */
    method ProcessRequest(net: Network, name: string, args: seq<Json>) returns (r: Outcome<Json>)
      modifies this, net
      ensures var run := Dispatch(old(transport), username, password, old(sessionKey), old(net.pending), name, args);
        && r == run.outcome && sessionKey == run.session
        && net.pending == run.pending && net.posted == old(net.posted) + run.posted
      ensures transport == old(transport)
      ensures !old(Connected()) ==> r == Err(Disconnected) && !Connected()
    {
      if !Connected() {
        DisconnectedFailsFirst(transport, username, password, sessionKey, net.pending, name, args);
      }
      ghost var goal := Dispatch(transport, username, password, sessionKey, net.pending, name, args);
      ghost var sent: seq<Post> := [];
      while true
        invariant transport == old(transport)
        invariant net.posted == old(net.posted) + sent
        invariant var now := Dispatch(transport, username, password, sessionKey, net.pending, name, args);
          goal == Run(now.outcome, now.session, now.pending, sent + now.posted)
        decreases |net.pending|
      {
        if !Connected() {
          DisconnectedFailsFirst(transport, username, password, sessionKey, net.pending, name, args);
          return Err(Disconnected);
        }
        ghost var posted := net.posted;
        ghost var before := Dispatch(transport, username, password, sessionKey, net.pending, name, args);
        var settled := Attempt(net, name, args);
        ghost var tail := net.posted[|posted|..];
        Associative(old(net.posted), sent, tail);
        if settled.Some? {
          return settled.value;
        }
        ghost var now := Dispatch(transport, username, password, sessionKey, net.pending, name, args);
        Associative(sent, tail, now.posted);
        sent := sent + tail;
      }
    }
  }
}
