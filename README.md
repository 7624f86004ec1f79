# limeade: a verified model of the LimeSurvey RemoteControl client core

Limeade is a Ruby client for the LimeSurvey RemoteControl API. Its core has
three parts, and this project models all three in Dafny:

- **The JSON-RPC 1.0 transport** (`Limeade::JSON_RPC`, module `Transport`).
  It builds the request envelope `{jsonrpc: "1.0", method, params, id}` with a
  random id below 10^12 and posts it. It then checks the HTTP response in a
  fixed order:
  - a nil response, a nil body, an empty body;
  - a body the decoder rejects;
  - a body that is not a Hash, has no `id`, or has an `id` other than the request's;
  - a body that lacks the `result` key or the `error` key;
  - an `error` that is truthy but is not a well-formed error object.

  The first failing check raises `InvalidResponseError` with its own message.
  A truthy, well-formed `error` raises `ServerError(code, message)`.
  Otherwise the call returns `result`, whatever its JSON type.
- **The session client** (`Limeade::Client`, module `RemoteControl`). It holds
  two fields: a session key and a transport handle. `initialize` fetches a key
  with the credentials. `connected?` holds when both fields are truthy.
  `disconnect` releases the key at the server and then drops both fields.
  `process_request` makes every API call:
  - it fails with `DisconnectedError` when the client is not connected;
  - otherwise it invokes the method with the session key before the caller's arguments;
  - it reads the `status` of a Hash result through an ordered table
    (exact strings first, then three regexps, then `APIError`);
  - on "Invalid session key" it fetches a new key, stores it and runs the
    whole request again.
- **The error taxonomy** (`lib/limeade/errors.rb`, module `Errors`). It is one
  datatype with one variant per error class, plus each class's message text.

Modules `Text` and `JsonData` hold the Ruby primitives the core relies on:
- the decoded JSON value;
- Ruby truthiness, where only nil and false are falsy;
- `Integer#to_s` and the interpolation `to_s`;
- the regexp semantics the status table uses. `$` matches at the end of any
  line, and `/i` ignores letter case.

Each part stays in the source's own form:
- The validation chain and the status table are pure functions.
- `JSON_RPC` and `Client` are classes. Their methods update the fields as the
  Ruby code does.
- The `rescue NoSessionError … retry` of `process_request` is a `while` loop
  in `Client.ProcessRequest`. That loop is proved against the recursive
  specification function `Dispatch`.

The HTTP side is a scripted `Network` object. It keeps the exchanges still to
come and a log of every request posted. Each exchange supplies the request id
that `rand` would draw and the server's answer to the posted envelope.
`URI.parse`, `MultiJson.decode` and `Object#inspect` are Ruby library code.
The model takes them as the total functions of a `Runtime` value.

**The retry bound exists only in the model.** The source retries without any
bound. Here each round trip uses up one scripted exchange, and a post after
the script has run out fails with `ConnectionFailed`. So a server that keeps
rejecting the session key ends the call once the script is spent.

Some readings of the client are tempting but wrong. In each case the model
follows what the code does:
- `/(left to send)|(No candidate tokens)$/` is easily read as two suffix
  tests. But the `$` binds only to the second alternative. So "left to send"
  anywhere in the status, on any line, returns the raw Hash. It does not have
  to end the status.
- `get_session_key` and `release_session_key` are redefined as private methods
  after the generated API wrappers. They call the transport directly, so their
  results never go through the status table.
- The transport's tests expect an `InvalidJSONError` for an undecodable body.
  No such class exists, and the code raises `InvalidResponseError` with the
  decoder's message.
- The status regexps are modelled with full line semantics: a match may end at
  any newline. The one-line lemmas state the simpler suffix reading for
  statuses without newlines.

## Model

| member | source | states |
|---|---|---|
| Transport.Envelope | lib/limeade/json_rpc.rb:57-62 | the posted object has exactly the keys jsonrpc, method, params and id, and reads back as the request with the method name, the arguments in order and the id |
| Transport.EnvelopeIsExactly | lib/limeade/json_rpc.rb:11-62 | any object that reads as a request is exactly the envelope of that request, with jsonrpc "1.0" and nothing else |
| Transport.VerifyResponse | lib/limeade/json_rpc.rb:91-96 | passes exactly when there is a response with a non-empty body; a nil response, a nil body and an empty body each fail with their own InvalidResponse flaw, in that order |
| Transport.VerifyErrorBody | lib/limeade/json_rpc.rb:105-112 | a truthy error passes exactly when it is a Hash with an Integer code and a String message. The checks run in the source's order, each premise saying the earlier ones passed, and each failure has its own flaw: not a Hash, missing code, code not an Integer (even when the message is also missing), missing message, message not a String |
| Transport.VerifyPayload | lib/limeade/json_rpc.rb:98-113 | passes exactly when the payload is well formed: a Hash whose id equals the request id (Ruby `==`, so a Float of equal value also matches), with both result and error keys, and a well-formed error object whenever error is truthy. The checks run in the source's order, each with its own flaw: not a Hash, missing id, id mismatch (naming both ids), missing result or error key; a truthy error is then judged by VerifyErrorBody |
| Transport.ProcessResponse | lib/limeade/json_rpc.rb:82-89 | the only errors a response can produce are InvalidResponse and ServerError, both kinds of Limeade::Error |
| Transport.PayloadFrom | lib/limeade/json_rpc.rb:115-120 | decoding succeeds exactly when the decoder parses the body, and then yields the decoded value; a decoder failure is exactly InvalidResponse carrying the decoder's message |
| Transport.ProcessResponseSound | lib/limeade/json_rpc.rb:82-89 | a value is returned only from the result of a decoded, well-formed payload whose error is nil or false; a ServerError only from a well-formed truthy error object, with its code and message |
| Transport.ResultReturnedVerbatim | lib/limeade/json_rpc.rb:86-88 | a well-formed payload with a falsy error yields its result unchanged, whatever its JSON type, nil included |
| Transport.ServerErrorTakesPrecedence | lib/limeade/json_rpc.rb:86 | a well-formed truthy error yields ServerError(code, message) even when result is also present |
| Transport.UndecodableBody | lib/limeade/json_rpc.rb:115-120 | a non-empty body that the decoder rejects yields InvalidResponse carrying the decoder's own message |
| Transport.IdEchoEnforced | lib/limeade/json_rpc.rb:102 | a Hash whose id differs from the request id is rejected with the id-mismatch message naming both ids, whatever result and error hold |
| Transport.BothKeysRequired | lib/limeade/json_rpc.rb:103 | with a matching id but no result key or no error key, the answer is rejected before any error check |
| Transport.FalseErrorIsNoError | lib/limeade/json_rpc.rb:105 | an error of false counts as no error: the result comes back |
| Transport.Call | lib/limeade/json_rpc.rb:54-68 | one invocation takes one exchange and posts exactly one envelope to the endpoint; the envelope carries the method, the arguments and an id in [0, 10^12); the only errors are InvalidResponse, ServerError (both Limeade::Error kinds) and ConnectionFailed; its outcome is fixed by CallJudgesPostedId |
| Transport.CallJudgesPostedId | lib/limeade/json_rpc.rb:54-68 | the outcome of an invocation is the server's answer to the posted envelope: a failed exchange is ConnectionFailed with its message, and a delivered response is processed against the id the posted envelope carries |
| RemoteControl.CallConsumes | lib/limeade/json_rpc.rb:54-68 | one invocation leaves a suffix of the scripted exchanges and posts one request for each exchange it used |
| Transport.JsonRpc.constructor | lib/limeade/json_rpc.rb:45-48 | stores the endpoint string, the retry options and the runtime |
| Transport.JsonRpc.New | lib/limeade/json_rpc.rb:45-48 | an endpoint that does not parse as a URI fails with the parser's error; a valid one is stored in its string form, and nil retry options become an empty map |
| Transport.JsonRpc.Invoke | lib/limeade/json_rpc.rb:54-68 | the outcome, the remaining exchanges and the posted log are exactly those of Call on the state before |
| Errors.ServerErrorMessageInjective | lib/limeade/errors.rb:15-22 | the text "Server error <code>: <message>" determines both the code and the message |
| Errors.MessageShows | lib/limeade/errors.rb:15-28 | a ServerError's text starts with "Server error ", the code and ": ", and ends with the server's message; an APIError's text quotes the method name and ends with the status |
| Errors.FlawTextsDiffer | lib/limeade/json_rpc.rb:93-111 | the InvalidResponse messages of two different kinds of check never coincide |
| Errors.MismatchShows | lib/limeade/json_rpc.rb:102 | of the messages the transport writes itself, exactly the id-mismatch ones start with "Response id" |
| Errors.FlawText | lib/limeade/json_rpc.rb:93-111 | the InvalidResponseError message of each check, as the source writes it; FlawTextsDiffer and MismatchShows show that each check's message is its own |
| Errors.Message | lib/limeade/errors.rb:9-28 | the message each error class builds; MessageShows gives the ServerError and APIError formats, and ServerErrorMessageInjective shows a ServerError's text determines its code and message |
| Text.IntText | lib/limeade/errors.rb:21 | Integer#to_s as interpolation uses it: never empty, and it starts with a minus sign exactly for negative numbers; IntTextInjective shows two integers with the same text are equal |
| JsonData.Truthy | lib/limeade/json_rpc.rb:105 | Ruby truthiness: only nil and false are falsy; FalseErrorIsNoError and PassThrough show its two uses |
| JsonData.ToS | lib/limeade/json_rpc.rb:102 | the `to_s` of string interpolation: nil is empty, booleans and integers print as Ruby prints them, a String is itself, anything else uses inspect; IdEchoEnforced and UnrecognisedStatusFails show where it is used |
| Text.ContainsMeans | lib/limeade/client.rb:157 | the unanchored match finds a pattern exactly when it occurs somewhere in the status |
| Text.EndsLineMeans | lib/limeade/client.rb:157-161 | the match anchored by `$` finds a pattern exactly when it occurs at the end of the status or just before a newline |
| RemoteControl.Interpret | lib/limeade/client.rb:147-168 | the status table of process_request: a result without a truthy status comes back unchanged, and the only error it raises is an APIError naming the method; the lemmas below fix every row |
| RemoteControl.PassThrough | lib/limeade/client.rb:147-167 | a result that is not a Hash, or a Hash without a truthy status, is returned unchanged |
| RemoteControl.ExactStatusRows | lib/limeade/client.rb:148-156 | "OK" gives true, "No surveys found" and "No Tokens found" give [], and "No survey participants table" gives false; the match is case-sensitive ("ok" raises APIError) |
| RemoteControl.PatternRows | lib/limeade/client.rb:157-164 | any other String status is decided by the three regexps in order, and otherwise raises APIError with the method name and the status |
| RemoteControl.LeftToSendKeepsResult | lib/limeade/client.rb:157-158 | a status with "left to send" anywhere returns the whole result Hash |
| RemoteControl.NoCandidateTokensKeepsResult | lib/limeade/client.rb:157-158 | a one-line status ending in "No candidate tokens" returns the whole result Hash |
| RemoteControl.FoldedSuffixOnOneLine | lib/limeade/client.rb:159-161 | on one line, a `/…$/i` regexp matches exactly when the case-folded status ends with the case-folded pattern |
| RemoteControl.UnknownSurveyPatternOnOneLine | lib/limeade/client.rb:157-160 | a one-line status ending in "Invalid surveyid" in any case, without "left to send", skips the raw row and matches the unknown-survey row |
| RemoteControl.ExpiredSessionPatternOnOneLine | lib/limeade/client.rb:157-162 | a one-line status ending in "Invalid session key" in any case, without "left to send", matches only the expired-session row |
| RemoteControl.UnknownSurveyIsNil | lib/limeade/client.rb:159-160 | such a status yields nil |
| RemoteControl.SessionExpiredReauthenticates | lib/limeade/client.rb:161-162 | such a status sends the client to fetch a new session key |
| RemoteControl.PatternsMean | lib/limeade/client.rb:157-161 | each regexp matches exactly when its pattern occurs as the regexp describes: anywhere, at a line end, or at a line end ignoring case |
| RemoteControl.UnrecognisedStatusFails | lib/limeade/client.rb:163-164 | the table raises exactly when the result has a truthy status that no row recognises, and the error is then APIError carrying the method name and the status |
| RemoteControl.Authenticated | lib/limeade/client.rb:183-187 | a non-Hash answer is the session key; a Hash answer fails with InvalidCredentials; a transport error passes through unchanged |
| RemoteControl.RefusalMessage | lib/limeade/client.rb:185 | the refusal message is the Hash's status, or the inspected Hash when it has no status |
| RemoteControl.HoldsSession | lib/limeade/client.rb:49-51 | connected?: the session key is truthy and the transport is held; DisconnectedFailsFirst shows a call without it posts nothing |
| RemoteControl.Client.Connected | lib/limeade/client.rb:49-51 | connected? on the client's own fields; Disconnect ensures the client is not connected after any answer |
| RemoteControl.Dispatch | lib/limeade/client.rb:144-173 | process_request from a given state, as a function of the key, the transport and the network script; Client.ProcessRequest is proved equal to it, and the lemmas below characterise it |
| RemoteControl.Round | lib/limeade/client.rb:146-172 | one pass of process_request's body for a connected client: invoke with the key first, interpret the status, and on an expired session fetch a key and dispatch again; DispatchStops, DispatchAuthFails and DispatchRenews give its three endings |
| RemoteControl.DispatchStops | lib/limeade/client.rb:146-168 | a call whose first answer fails or needs no new session ends there, with that error or the table's value, and the session is unchanged |
| RemoteControl.DispatchAuthFails | lib/limeade/client.rb:169-172 | when fetching a new key fails, its error is the outcome and the old key is kept |
| RemoteControl.DispatchRenews | lib/limeade/client.rb:169-172 | when a new key arrives, the call continues as a fresh dispatch from that key; the posts so far come first |
| RemoteControl.DisconnectedFailsFirst | lib/limeade/client.rb:145 | without a session the call fails with Disconnected, posts nothing and changes nothing |
| RemoteControl.SessionKeyGoesFirst | lib/limeade/client.rb:146 | when connected, the first request posted is the method with the session key before the caller's arguments |
| RemoteControl.SessionExpiryRetries | lib/limeade/client.rb:161-172 | after an expired-session status, get_session_key is sent with the credentials on the next exchange; its failure is the outcome; otherwise the new key is kept and the same method and arguments run again, and a nil or false new key ends in Disconnected |
| RemoteControl.DispatchConsumes | lib/limeade/client.rb:144-173 | a call uses up a prefix of the scripted exchanges and posts exactly one request per exchange used |
| RemoteControl.DispatchRaises | lib/limeade/client.rb:136-173 | a call raises only InvalidResponse, ServerError, a connection failure, InvalidCredentials, Disconnected, or an APIError naming the method called |
| RemoteControl.AlternatingAt | lib/limeade/client.rb:161-172 | in an alternating log, even positions hold the method request and odd positions hold get_session_key with the credentials |
| RemoteControl.DispatchAlternates | lib/limeade/client.rb:144-172 | the requests one call posts alternate between the method (a session key, then the caller's arguments) and get_session_key with the credentials, all to the endpoint |
| RemoteControl.Client.constructor | lib/limeade/client.rb:40-43 | sets the transport and the credentials before any key is held |
| RemoteControl.Client.Open | lib/limeade/client.rb:40-45 | an invalid endpoint fails and posts nothing; otherwise one get_session_key request is posted, and a refusal or transport error propagates, or a client holding the answer as its session key is returned |
| RemoteControl.Client.GetSessionKey | lib/limeade/client.rb:183-187 | one get_session_key invocation with the credentials, judged by Authenticated, without the status table |
| RemoteControl.Client.ReleaseSessionKey | lib/limeade/client.rb:195-197 | one release_session_key invocation with the session key, its outcome returned as it is |
| RemoteControl.Client.Disconnect | lib/limeade/client.rb:55-64 | when not connected, answers false and changes nothing; when connected, releases the key first, and on success answers true and clears both fields, while a failed release propagates and leaves the client connected; after any answer the client is not connected, so two disconnects answer true, then false |
| RemoteControl.Client.Attempt | lib/limeade/client.rb:144-172 | one pass of process_request's body either settles the call as Dispatch does, or renews the key, and the rest of the call is then Dispatch from the new state |
| RemoteControl.Client.ProcessRequest | lib/limeade/client.rb:144-173 | the outcome, the session key kept, the exchanges left and the requests posted are exactly those of Dispatch from the starting state; the transport is never replaced; an unconnected client fails with Disconnected |

## Left out

- HTTP: the Faraday connection, its memoisation, the retry middleware and its options (`lib/limeade/json_rpc.rb:63,72-80`). Posting is the scripted `Network`. Retry options are stored but have no effect.
- `MultiJson.encode`/`decode`, `URI.parse(..).to_s` and `Object#inspect` are foreign library code. They are the total functions of `Transport.Runtime`, so the model does not fix the encoding of the envelope, the decoder's grammar or the inspected text.
- `make_id`'s `rand(10**12)`: each scripted exchange supplies the id, and its type keeps it in [0, 10^12).
- Logging (`Limeade.logger`): output only, with no effect on results.
- The generated API wrappers (`define_api_method`, `lib/limeade/client.rb:79-132`) forward a method name to `process_request`. The model has one generic `Client.ProcessRequest` that takes the name as a string.
- `NoSessionError` is not an error value here. It is the `Reauthenticate` verdict of the status table, which the request loop handles, so it never reaches a caller, as in the source.
- Case folding for `/i` covers ASCII letters only. Ruby also folds other Unicode letters.
- RemoteControl.Client.ProcessRequest: the unbounded `retry` is bounded by the length of the network script, and an exhausted script fails with `ConnectionFailed`. This bound exists only in the model.
- Transport.JsonRpc.New: only nil retry options become `{}`. Ruby's `||` also replaces `false`, which the model's option type cannot express.
- Errors.FlawTextsDiffer: does not compare two id-mismatch messages with each other, or a decoder message with anything. The decoder's text is foreign.
- Hash key order: a decoded JSON object is an unordered `map`, while a Ruby Hash keeps insertion order. Two Hashes that differ only in key order get the same `inspect` text here. That text appears in the InvalidCredentials message of a refusal without a status, in the APIError for a Hash status and in the id-mismatch message for a Hash id. A Hash returned to the caller also loses its key order.
- Concurrency: several threads sharing one client are not modelled.
