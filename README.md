# chat2api dispatcher and credential pool, in Dafny

A model of the core of chat2api, a gateway in front of a conversational-AI
backend. Two parts of `chat2api.py` are modelled.

- **The credential pool handlers** (`pytext.dfy`, `tokenpool.dfy`). The upload
  handler splits the form text on line feeds. It keeps each line that is not
  blank once stripped and that, as received, does not start with `#`. Each kept
  line, stripped, is appended to the in-memory token list, and the same token
  followed by a line feed is appended to the token file. The clear handler
  empties both. `CredentialPool` is a class with the token list (`tokens`) and
  the lines of the token file (`record`) as `seq` fields. Its `Upload` method
  is a loop over the lines, proved against the specification function `Tokens`.
  Python's `str.strip()`, `str.split("\n")` and `"\n".join` are modelled in
  `PyText`, whitespace being exactly what `str.isspace()` accepts.
- **The chat-completions dispatcher** (`dispatch.dfy`). It covers
  `to_send_conversation` and `send_conversation`. The body parser, the rate
  limiter and each stage of the upstream `ChatService` are awaited calls whose
  code is not part of this model. Each is an outcome supplied by the caller:
  `Ok(value)`, or `Fail` with an `HttpErr(status, detail)` or an
  `OtherErr(message)` for any other subclass of `Exception`. `ChatService` is a class that counts its `close_client`
  calls (`closeCount`). It also counts the calls attached to a response as its
  background task (`deferredCloses`). `SendConversation` is proved to reply
  exactly as the specification function `Expected` says. It is also proved to
  leave every session it created with exactly one close, immediate or deferred,
  whenever every stage ends with a value or an `Exception`.

## Model

| member | source | states |
|---|---|---|
| PyText.TrimLeftSpec | chat2api.py:97 | left trimming leaves a suffix that starts with a non-space (or is empty), and everything it drops is whitespace |
| PyText.TrimRightSpec | chat2api.py:97 | right trimming leaves a prefix that ends with a non-space (or is empty), and everything it drops is whitespace |
| PyText.StripSpec | chat2api.py:97 | `strip()` returns its argument with a run of whitespace cut from each end, leaving no whitespace at either end; it is empty exactly when the line is all whitespace |
| PyText.StripUnpadded | chat2api.py:97-98 | a string with no whitespace at either end strips to itself |
| PyText.StripIdempotent | chat2api.py:98 | a stripped token strips to itself again |
| PyText.StripKeeps | chat2api.py:98 | stripping adds no character, so a line without a line feed gives a token without one |
| PyText.Split | chat2api.py:95 | `split("\n")` yields at least one piece, and no piece holds a line feed |
| PyText.JoinSplit | chat2api.py:95 | joining the pieces of `split("\n")` with line feeds gives back the text |
| PyText.SplitPrefix | chat2api.py:95 | a first line without a line feed becomes the start of the first piece |
| PyText.SplitJoin | chat2api.py:95 | splitting a join of pieces without line feeds gives back those pieces |
| TokenPool.AcceptedOne | chat2api.py:97-98 | one line adds its stripped form when it passes the filter, and nothing otherwise |
| TokenPool.AcceptedAppend | chat2api.py:96-98 | lines are judged one at a time: the tokens of two batches of lines are the tokens of each, in order |
| TokenPool.AcceptedExactly | chat2api.py:95-98 | the appended tokens are exactly the kept lines, stripped, in input order (a strictly increasing list of positions names every kept line and no other) |
| TokenPool.KeptPositionsSkipped | chat2api.py:97 | a rejected line adds no position to the kept lines |
| TokenPool.KeptPositionsKept | chat2api.py:97-98 | a kept line adds its own position and its stripped form |
| TokenPool.FramedAppend | chat2api.py:99-100 | the file lines written for two batches of tokens are the lines of each, in order |
| TokenPool.AcceptedWellFormed | chat2api.py:97-98 | every appended token is non-empty, already stripped and free of line feeds |
| TokenPool.StripWellFormed | chat2api.py:97-98 | a kept line strips to a non-empty, stripped token with no line feed |
| TokenPool.TokensWellFormed | chat2api.py:95-98 | blank or whitespace-only lines never add a token, and every token of an upload is stripped |
| TokenPool.RejectedLines | chat2api.py:97 | a line whose raw form starts with `#`, or that is all whitespace, adds nothing |
| TokenPool.FileTextJoin | chat2api.py:99-100 | the token file holds one token per line, ending with a line feed |
| TokenPool.AcceptedOfReloadable | chat2api.py:97-98 | lines that pass the filter unchanged are kept exactly as they are |
| TokenPool.ReloadTokens | chat2api.py:95-100 | uploading the token file's text again yields the tokens it was written from, when they are well formed (non-empty, already stripped, free of line feeds) and none starts with `#` |
| TokenPool.UploadExample | chat2api.py:95-100 | the text "sk-aaa", "# comment", an empty line and "sk-bbb" adds exactly `sk-aaa` then `sk-bbb` |
| TokenPool.IndentedHashKept | chat2api.py:97-98 | the `#` test reads the raw line: "  #x" is kept and stored as "#x" |
| TokenPool.KeptUnpadded | chat2api.py:97-98 | a line with no whitespace at either end that does not start with `#` is kept exactly as written |
| TokenPool.ExampleJoin | chat2api.py:95 | the four example lines joined by line feeds are the example upload text |
| TokenPool.ExampleFilter | chat2api.py:97-98 | of the four example lines only `sk-aaa` and `sk-bbb` survive the filter, in that order |
| TokenPool.AcceptedStep | chat2api.py:96-100 | one loop iteration extends the accepted tokens, and the lines appended to the file, by exactly that line's contribution |
| TokenPool.AppendedFacts | chat2api.py:98-103 | appending tokens keeps the old list and file as prefixes, the file's new tail frames the list's new tail, and a file that mirrored the list still does |
| TokenPool.CredentialPool.constructor | chat2api.py:16 | the pool starts from a given token list and token file |
| TokenPool.CredentialPool.Upload | chat2api.py:94-103 | the list becomes the old list followed by the upload's tokens, and the file gains the same tokens with line feeds. The old contents are a prefix of the new, the new file lines mirror the new list entries, a file that mirrored the list still does, and the reply is "success" with the new length |
| TokenPool.CredentialPool.Clear | chat2api.py:107-113 | the list and the file are both empty whatever their prior size, they mirror each other, and the reply is "success" with count 0 |
| Dispatch.ReraiseSpec | chat2api.py:47-53 | a session-stage error always leaves as a new `HTTPException` without headers. An `HTTPException` keeps its status and detail, and any other error becomes 500 "Server error" whatever its message. Mapping twice changes nothing |
| Dispatch.ChatService.constructor | chat2api.py:42 | a new session has not been closed and has no deferred close |
| Dispatch.ChatService.CloseClient | chat2api.py:48 | an immediate close adds one to the close count and nothing else |
| Dispatch.ChatService.DeferClose | chat2api.py:73-76 | attaching the background close adds one deferred close and no immediate one |
| Dispatch.ToSendConversation | chat2api.py:41-53 | the setup's result is the first failure of dynamic-data setup or the requirements handshake, mapped; the session comes back with zero closes on success and exactly one close on failure |
| Dispatch.SendConversation | chat2api.py:57-84 | the reply is `Expected`. The limiter is consulted exactly when the body parsed and limiting is on, and a session exists exactly when the request was admitted. Every session ends with exactly one close, deferred exactly when a response is returned; an unserialisable payload is closed at once |
| Dispatch.MalformedBody | chat2api.py:58-61 | a body that fails to parse gives 400 with `{"error": "Invalid JSON body"}`, before anything else runs |
| Dispatch.LimitDenial | chat2api.py:63-66 | with limiting on, a truthy limiter answer gives the configured status with that answer as detail |
| Dispatch.LimitDisabled | chat2api.py:63-66 | with limiting off, the limiter's answer changes neither the reply nor whether a session is created |
| Dispatch.StageFailures | chat2api.py:43-84 | once admitted, the first failing stage among dynamic data, requirements, prepare and send decides the error, mapped |
| Dispatch.SuccessfulReply | chat2api.py:72-84 | a response is returned exactly when the request is admitted, every stage succeeds and the payload serialises; it is `text/event-stream` exactly for an async generator, else `application/json` with the payload; a payload `JSONResponse` cannot serialise gives 500 "Server error" |
| Dispatch.NoInternalErrorText | chat2api.py:81-84 | the message of a non-HTTP error raised by a session stage, or by serialising its payload, never reaches the client |
| Dispatch.ErrorStatuses | chat2api.py:57-84 | unless the limiter itself raises, every error the client sees is an `HTTPException` without headers, with status 400, the limit status or 500, or with the status and detail of the `HTTPException` a session stage raised |

## Left out

- Routing, CORS, the `api_prefix` route strings and the catch-all reverse proxy (chat2api.py:23-32, 116-118): framework wiring and forwarding to a module that is not part of this model.
- The token count page and its template (chat2api.py:87-90): user interface.
- The daily limiter reset scheduled at start-up (chat2api.py:35-38): a background thread around `clean_dict`, which is not part of this model.
- Real file I/O: the token file is the sequence of lines written to it. How the token list is first loaded from that file (in `utils.authorization`) is not part of this model; `ReloadTokens` only says what the upload filter would make of the file.
- CredentialPool.Upload: opening and appending to the token file (chat2api.py:99-100) is assumed not to raise. In the code each token is appended to the list (chat2api.py:98) before the file is opened. If the open or the write fails (no `data/` directory, no permission, a full disk), the list holds one token more than the file, the remaining lines are never looked at, and the client gets an error instead of the `{"status", "tokens_count"}` reply. The model's "a file that mirrored the list still does" holds only when every write succeeds.
- CredentialPool.Clear: truncating the token file (chat2api.py:108-109) is assumed not to raise. In the code the list is cleared first (chat2api.py:107), so a failed open leaves the list empty and the file as it was, and the client gets an error instead of the reply.
- Logging: `logger` calls have no effect in the model.
- Concurrency: within one event loop `upload_post` has no `await` between the list append and the file write (chat2api.py:98-100), so it runs without interruption. Several worker processes, however, each keep their own `token_list` while sharing `data/token.txt`, so their lists and the file drift apart; the model has a single pool.
- The retry wrapper: `async_retry` is not part of this model. `SendConversation` calls `ToSendConversation` once, for the attempt that decides the outcome. Earlier attempts are calls of the same method, so each leaves its own session closed exactly once. No retry bound or classification of errors is modelled.
- SendConversation: `close_client` is assumed not to raise. The code awaits it inside each `except` clause before raising the mapped error (chat2api.py:79, 82). If it raises, its own exception reaches the client instead of the `HTTPException` with the stage's status and detail, or the 500 "Server error". `ReraiseSpec`, `StageFailures`, `ErrorStatuses` and `NoInternalErrorText` then do not describe what the client sees.
- ToSendConversation: likewise `close_client` is assumed not to raise in the setup's `except` clauses (chat2api.py:48, 51). If it does, its exception escapes in place of the mapped error.
- The `ChatService` constructor is assumed not to raise, since its code is not part of this model. The payloads the stages build from the request body are not modelled either; only how each stage ends is.
- When the response's background task actually runs (after the stream ends or the client disconnects) is up to the framework. The model records only that exactly one close was attached.
- `int(limit_status_code)`: the configured status is taken as an integer already.
- JSON numbers are integers in `Json`; floating-point values are not modelled. A payload that `JSONResponse` cannot serialise (a NaN among them) is the `Unserialisable` send result, which carries only the message of the exception raised.
- A limiter denial is raised as an `HTTPException` (chat2api.py:65-66). No retry policy is visible in chat2api.py, so none is modelled.
- SendConversation: exceptions that are not subclasses of `Exception` (`asyncio.CancelledError`, `KeyboardInterrupt`, `SystemExit`) escape both `except` clauses (chat2api.py:78-84) without `close_client`, leaving the session unclosed. The model has no such failure, so its one-close guarantee covers only stages that end with a value or an `Exception`.
- ToSendConversation: for the same reason, a setup stage that raises outside `Exception` (chat2api.py:47-53) leaves the new session unclosed; this path is not modelled.
- Both handlers at chat2api.py:94 and chat2api.py:107 are named `upload_post` in Python. The second definition rebinds the module-level name after the first has been registered as a route, so both routes work. The model names them `Upload` and `Clear`.
