# grok3_api gateway core, in Dafny

This project models the deterministic core of `grok3_api.py`, a gateway that accepts
OpenAI-style chat-completion requests and replays them against the Grok web API. It covers
six pieces of that file:

- **Credential rotator** (`rotation.dfy`). `get_cookie_index` and its process-wide cursor
  become the class `CookieRotator`, which holds one `nat` field. Its method is tied to the
  pure function `Select`. Serial calls are described by `Serial` and `CursorAfter`.
- **Prompt assembly** (`prompt.dfy`). The `message_builder` loop of `do_POST` becomes the
  method `BuildMessage`, proved equal to `AssembleMessage`. That function is the prefix, then
  one `"\n[[role]]\ncontent"` block per message in order, then `"\n" + suffix`.
- **Upstream client** (`upstream.dfy`). `GrokClient` is a value, because nothing updates its
  fields after construction. `prepare_payload` keeps only the fields that vary.
  `send_message` decides whether to upload: the upload happens iff `uploadMessage` is set or
  the prompt is longer than 40000 characters. What the upload endpoint answers is a parameter.
- **Stream classifier** (`classifier.dfy`). `parse_grok3_streaming_json` becomes the method
  `ParseStreamingJson`. It keeps the source's `for` loop, its `is_thinking` flag and its
  if-chain, and returns the handler's calls as a sequence. It is proved equal to the
  state-machine function `ClassifyFrom`. Lemmas relate that function to independent
  descriptions: which token came last, how each token is framed, and what is left when
  reasoning is ignored.
- **Emitters** (`emitters.dfy`). Both emitters are consumers of the classifier's output. The
  streaming emitter produces `Start`, one `Delta` per fragment, `Stop`, `Done`. The full
  emitter produces one `Completion` whose content is the fragments joined in order.
- **Request handling** (`gateway.dfy`). `Decide` is the order of checks in `do_POST`: path,
  bearer prefix, token, credential, messages. It also covers flag resolution and prompt
  assembly. `HandlePost` and `Serve` perform those steps against a shared `CookieRotator` and
  are proved to agree with `Decide`, `Reply` and `Outcome`.

`text.dfy` models the Python built-ins the handler relies on: `str.strip` (with Python's
exact whitespace set), `str.startswith`, `"".join` and list indexing with negative indices.
`wrappers.dfy` holds `Option` and `Result`.

Where the system's documented behaviour and its code differ, the model follows the code:

- **Check order.** The documented request life-cycle authenticates first. The code checks the
  path first and answers 404; only then come the bearer prefix and the token (401).
- **Missing credential.** The documented error taxonomy has its own "no credential
  available" error. The code has none: a request with no usable cookie gets a 400 with
  "Error: No Grok 3 cookie".
- **Cursor range.** The documentation says the rotation cursor always lies in `[0, len)` of
  the pool. The code keeps one cursor for the server pool and for every per-request cookie
  list. So the cursor is only known to be below the length used by the last rotating call
  (`GetCookieIndex`, `Select`), not below the length of the current pool.
- **Negative `cookieIndex`.** The documentation speaks only of 1-based indices and of
  rotation. In the code, a negative `cookieIndex` does not rotate: `get_cookie_index` returns
  `cookieIndex - 1`, and Python's negative list indexing then picks from the end of the list.
  The lookup raises IndexError exactly when `cookieIndex - 1 < -length`, that is when
  `cookieIndex <= -length`. For example, `cookieIndex = -1` with a one-element list raises.
  The IndexError is outside the `try`, so the connection is dropped (`Abort`,
  `ConnectionDropped`).
- **Flag defaults.** The documentation makes all four integer flags tri-states that fall back
  to the server default. In the code only `keepChat` and `ignoreThinking` do. `enableSearch`
  and `uploadMessage` are on exactly when set positive, and off otherwise.
- **Model name.** The documentation selects the reasoning model by exact string match. The
  code strips the requested name before comparing it.
- **Malformed stream lines.** The documentation says they are skipped. In the code
  `json.loads` raises. The model takes already-decoded lines and claims no tolerance for
  malformed ones.

## Model

| member | source | states |
|---|---|---|
| Rotation.CookieRotator.constructor | grok3_api.py:39 | the cursor starts at 0 |
| Rotation.CookieRotator.GetCookieIndex | grok3_api.py:223-229 | rotating call: returns old cursor mod length, which is in range, and sets the cursor to (old cursor + 1) mod length; explicit index, 1-based in range or negative: returns it minus one and leaves the cursor unchanged |
| Rotation.ExplicitIndexHonoured | grok3_api.py:223-229 | an index in [1, length] selects index-1, which is a valid position, and does not move the cursor |
| Rotation.Rotates | grok3_api.py:224 | a call takes the round-robin path exactly when cookieIndex is 0 or above the length |
| Rotation.Select | grok3_api.py:223-229 | a rotating call (index 0 or above length) returns cursor mod length, a valid position, and leaves that position plus one, mod length, as the cursor; any other index returns index minus one, which is below length but may be negative, and leaves the cursor unchanged |
| Rotation.SerialRotation | grok3_api.py:223-229 | over any series of calls with a fixed length, the k-th rotating call returns (start + number of earlier rotating calls) mod length, so values are never skipped or repeated; explicit calls return their index minus one |
| Rotation.CursorAdvance | grok3_api.py:224-228 | after a series of calls the cursor has moved by exactly the number of rotating calls, mod length |
| Rotation.ConsecutiveRotation | grok3_api.py:224-228 | k calls without an index return start, start+1, ..., start+k-1, all mod length |
| Text.Strip | grok3_api.py:247 | the result is a contiguous slice of the input with only whitespace before and after it, and it neither starts nor ends with Python whitespace |
| Text.StripTrimmed | grok3_api.py:247 | a string that neither starts nor ends with whitespace strips to itself |
| Text.StripOfPadded | grok3_api.py:247 | a non-empty trimmed word with whitespace on both sides strips to exactly that word |
| Text.StripEmpty | grok3_api.py:258-262 | a string strips to "" exactly when it is all whitespace, which is when a cookie counts as missing |
| Text.StartsWith | grok3_api.py:243 | true exactly when the prefix is no longer than the string and matches it character by character; then the string is the prefix followed by the rest |
| Text.Join | grok3_api.py:206 | joining no parts gives "", joining one part gives that part |
| Text.JoinAppend | grok3_api.py:280 | joining a concatenation of part lists is concatenating their joins |
| Text.PyIndex | grok3_api.py:261 | list indexing succeeds exactly for -len <= i < len |
| Prompt.BuildMessage | grok3_api.py:276-280 | the builder loop and join produce the prefix, each message's block in order, then newline and suffix |
| Prompt.AssembleConcat | grok3_api.py:276-280 | the prompt for first + second holds the blocks of first, then the blocks of second: order is preserved |
| Prompt.AssembleExample | grok3_api.py:276-280 | messages user "a" and assistant "b" with prefix "P" and suffix "S" give "P\n[[user]]\na\n[[assistant]]\nb\nS" |
| Prompt.AssembledLongerThanContent | grok3_api.py:276-280 | the prompt is at least as long as prefix, suffix and any one message's role and content together |
| Upstream.Client.ModelName | grok3_api.py:105-106 | the name is "grok-3-reasoning" iff the client is reasoning, else "grok-3" |
| Upstream.PreparePayload | grok3_api.py:75-103 | isReasoning and message are carried over; temporary is not keepChat; toolOverrides is empty iff search is enabled, and otherwise sets the six tools to false; fileAttachments is [fileId], or [] when the id is empty |
| Upstream.UploadRequired | grok3_api.py:131 | the prompt is uploaded as a file exactly when uploadMessage is set or the prompt is longer than 40000 characters |
| Upstream.UploadFile | grok3_api.py:108-127 | the upload succeeds exactly when the status is 200 and fileMetadataId is non-empty, and then yields that id; a non-200 status is reported as such |
| Upstream.SendMessage | grok3_api.py:129-137 | without an upload, the message goes inline with no attachments; with one (uploadMessage, or more than 40000 characters), the whole prompt is uploaded, the inline message is the fixed instruction and the attachments are [fileId], or the upload error comes back; the uploaded text is present iff the upload condition holds; the inline message never exceeds 40000 characters |
| Upstream.LongContentIsUploaded | grok3_api.py:131 | if any one message's content exceeds 40000 characters, the assembled prompt is always uploaded |
| Classifier.Advance | grok3_api.py:143-157 | one line's transition: a blank line emits nothing; a suppressed reasoning token emits nothing and keeps the state; a reasoning token sets the state, with "<think>\n" in front when it opens a run; an answer token after reasoning gets "\n</think>\n\n" behind and clears the state |
| Classifier.ClassifyFrom | grok3_api.py:140-157 | the handler is never called with an empty string, and is called at most once per line |
| Classifier.ParseStreamingJson | grok3_api.py:140-157 | the loop with its is_thinking flag makes exactly the handler calls of the state machine started in the non-thinking state |
| Classifier.ClassifyAppend | grok3_api.py:142-157 | reading a + b makes a's calls, then b's calls from the state a left: output is prefix-consistent |
| Classifier.StateAppend | grok3_api.py:142-157 | the state after a + b is the state after b, started from the state after a |
| Classifier.IgnoreThinking | grok3_api.py:146-157 | with ignoreThinking, is_thinking never becomes true, and the handler gets exactly the non-empty answer tokens in order, with no tags |
| Classifier.StateIsLastThinking | grok3_api.py:148-154 | without suppression, is_thinking is exactly whether the most recent token was a reasoning token |
| Classifier.AdvanceIsFramed | grok3_api.py:145-155 | a reasoning token after a non-reasoning one gets "<think>\n" in front; an answer token after a reasoning one gets "\n</think>\n\n" behind; any other token passes unchanged |
| Classifier.Framing | grok3_api.py:148-157 | in any stream, the line after prefix a yields its framed text, relative to whether a ended in reasoning, if that text is non-empty, and nothing otherwise |
| Classifier.EndsOpen | grok3_api.py:148-151 | when the stream ends on a reasoning token, no close tag is added; output ends with the token, opened with "<think>\n" if it starts a run |
| Classifier.ClassifiedText | grok3_api.py:156-157 | dropping empty strings loses no text: the joined output is the joined framed text of every line |
| Classifier.ClassifyExample | grok3_api.py:140-157 | tokens a, b (reasoning) and c give ["<think>\na", "b", "c\n</think>\n\n"]; with suppression they give ["c"] |
| Emitters.CreateStreamingResponse | grok3_api.py:160-200 | the events are a start event, one delta per classifier fragment in order, a stop event and the [DONE] sentinel, all with the client's model name |
| Emitters.CreateFullResponse | grok3_api.py:203-220 | the completion's content is the in-order join of every fragment handed to the handler, under the client's model name |
| Emitters.EmittersAgree | grok3_api.py:160-206 | the deltas of the stream concatenate to the join of the fragments, which is the full response's content |
| Emitters.StreamShape | grok3_api.py:167-200 | a stream has exactly fragments + 3 events: one start first, each fragment's delta in order, then stop, then [DONE], with no other start |
| Gateway.Positive | grok3_api.py:283-284 | enableSearch and uploadMessage are on exactly when the value is present and positive |
| Gateway.ResolveFlag | grok3_api.py:285-286 | keepChat and ignoreThinking take the server default when absent or negative, are on when positive and off when zero |
| Gateway.Pick | grok3_api.py:261-264 | a pool lookup raises IndexError exactly outside -len <= i < len, and otherwise yields an entry of the pool |
| Gateway.ListEntry | grok3_api.py:261 | the body list's entry at a Python index, stripped, or IndexError outside -len <= i < len |
| Gateway.ListDraw | grok3_api.py:259-261 | a draw from a non-empty body list is the stripped entry at the index get_cookie_index returns, with the cursor it leaves |
| Gateway.ListEntryAt | grok3_api.py:261 | an index in Python's range reads the entry at that position, counted from the end when negative, stripped |
| Gateway.RequestCookie | grok3_api.py:255-261 | the body's credential only moves the cursor for a non-empty list, and is an IndexError only for a list with a negative cookieIndex |
| Gateway.BodyCookieTrimmed | grok3_api.py:258-261 | a credential taken from the body is stripped: it neither starts nor ends with whitespace |
| Gateway.ResolveCookie | grok3_api.py:255-264 | a non-empty credential from the body is used as it is; any other result comes from a non-empty server pool, as one of its entries, unstripped, or an IndexError; an IndexError needs a negative cookieIndex |
| Gateway.ClientFor | grok3_api.py:282-289 | the client carries the cookie; it is reasoning exactly when the stripped model name is "grok-3-reasoning"; search and upload are on only when set positive; keepChat and ignoreThinking fall back to the server settings when unset |
| Gateway.NoMessages | grok3_api.py:269 | a body has no messages when the field is absent or the list is empty, as `not body.get("messages")` tests |
| Gateway.BearerToken | grok3_api.py:247 | the token is no longer than the header after "Bearer " and has no whitespace at either end |
| Gateway.PaddedBearerToken | grok3_api.py:243-247 | "Bearer " followed by a token with whitespace around it passes the prefix check and reads back as exactly that token |
| Gateway.PaddedTokenAccepted | grok3_api.py:242-250 | a header holding the server's token padded with whitespace is never refused with a 401 |
| Gateway.DecideAuthorized | grok3_api.py:255-289 | after authentication every refusal is a 400; a forwarded request has a non-empty cookie and messages; the connection is dropped only for a negative cookieIndex |
| Gateway.Decide | grok3_api.py:237-289 | every refusal is a 400, 401 or 404; a 401 or 404 leaves the cursor unchanged; the connection is dropped only for a negative cookieIndex |
| Gateway.HandleAuthorized | grok3_api.py:255-289 | the credential draw, the checks, prompt building and client construction give the decision and cursor of DecideAuthorized |
| Gateway.Reply | grok3_api.py:292-303 | a failed upload or a non-200 chat status gives a 500 failure; otherwise the stream flag picks the event stream, which is exactly the streaming emitter's events for the classified fragments, or the completion under the client's model name whose content is the joined fragments |
| Gateway.Outcome | grok3_api.py:292-303 | a decision gives an error page exactly when refused, with its status and reason, and a dropped connection exactly when aborted |
| Gateway.DrawRequestCookie | grok3_api.py:255-261 | the body's cookie: a string is stripped; a non-empty list is indexed through the rotator, and a failed index is IndexError; anything else gives no cookie |
| Gateway.DrawCookie | grok3_api.py:255-264 | as above, falling back to the server pool through the rotator when the body gives no cookie |
| Gateway.HandlePost | grok3_api.py:237-289 | the handler's checks, credential draw, prompt building and client construction give the decision and cursor of the specification Decide |
| Gateway.Respond | grok3_api.py:292-303 | a rejection is an error page, an abort drops the connection, an upload or chat failure is a 500; otherwise the classified stream goes to the emitter that the stream flag picks |
| Gateway.Serve | grok3_api.py:237-303 | do_POST as a whole: the response and the new cursor are those of Decide followed by Outcome |
| Gateway.PathCheckedFirst | grok3_api.py:238-240 | any other path gets 404, whatever the rest of the request, and the cursor does not move |
| Gateway.TokenCheckedBeforeCredentials | grok3_api.py:242-250 | a missing "Bearer " prefix or a wrong token gets 401 before any credential is drawn; the cursor does not move |
| Gateway.EmptyMessagesRejected | grok3_api.py:269-271 | a request without messages is never forwarded upstream |
| Gateway.MessagesCheckedAfterCredential | grok3_api.py:262-271 | with path, token and credential in order, missing messages give the 400 "No messages provided" |
| Gateway.ForwardedRequest | grok3_api.py:237-289 | a forwarded request passed every check and has a non-empty cookie; it carries the assembled prompt, with the body's prefix and suffix or the server's, and each flag resolved as the source resolves it |
| Gateway.StringCookieUsed | grok3_api.py:256-258 | a non-blank cookie string in the body is used, stripped, without touching the cursor |
| Gateway.ExplicitListCookieUsed | grok3_api.py:259-261 | an explicit 1-based index into the body's list selects that entry, stripped, without touching the cursor |
| Gateway.ExplicitListEntry | grok3_api.py:259-261 | an explicit 1-based index into the body's non-empty list yields that entry, stripped, and leaves the cursor unchanged |
| Gateway.ListRotates | grok3_api.py:259-261 | with cookieIndex 0 or above the list's length, the body's list yields its entry at cursor mod length, stripped, and the cursor advances to cursor + 1 mod length |
| Gateway.ListNegative | grok3_api.py:259-261 | a negative cookieIndex k above -length yields the body list's entry at length + k - 1, stripped, with the cursor unchanged |
| Gateway.ListIndexErrorIff | grok3_api.py:259-261 | drawing from a non-empty body list raises IndexError exactly when cookieIndex <= -length |
| Gateway.PoolExplicit | grok3_api.py:262-264 | when the body gives no cookie, an explicit index k in [1, length] takes the server pool's entry k - 1, unstripped, and leaves the cursor where the body's draw left it |
| Gateway.PoolNegative | grok3_api.py:262-264 | when the body gives no cookie, a negative cookieIndex k above -length takes the pool's entry at length + k - 1, unstripped, with the cursor unchanged |
| Gateway.PoolIndexErrorIff | grok3_api.py:262-264 | when the body gives no cookie, drawing from a non-empty pool raises IndexError exactly when cookieIndex <= -length |
| Gateway.PoolRotates | grok3_api.py:262-264 | when the body gives no usable cookie (none, a blank string, an empty list or an entry that strips to ""), a rotating index takes the pool entry at the cursor the body's draw left, mod n, unstripped, and advances that cursor once more |
| Gateway.BlankEntryMovesCursorTwice | grok3_api.py:259-264 | a blank entry in a rotating body list moves the shared cursor twice: list [""] at cursor 5 with a three-entry pool gives "p0" and leaves the cursor at 1 |
| Gateway.StreamingMatchesFull | grok3_api.py:292-301 | for the same upstream reply, the streamed deltas concatenate to the non-streaming response's content |

## Left out

- HTTP transport: the server, sockets, status lines, headers, `send_error`, and `wfile` writes
  and flushes. Responses are values (`Response`, `Event`, `Completion`).
- The streaming handler writes each delta while the stream is read. The model collects the
  handler's calls first and then writes them. The event order is the same, but a client that
  disconnects mid-stream is not modelled.
- Network calls through `requests.Session`: the proxy, the timeout and the header dictionary.
  The upload reply and the chat status are parameters; the chat body is the classifier's input.
- JSON: decoding the request body with `Content-Length`, decoding the stream lines,
  malformed lines (they raise), body fields of unexpected types, and encoding the chunks.
- Base64 encoding of the upload, random `uuid4` file names and completion ids, `time.time()`
  timestamps, and the fixed `usage`, `object` and `role` fields: random, clock-driven or
  constant.
- The payload fields that never vary (`modelName` is always "grok-3", image flags and so on).
- The lock around the cursor and all concurrency: calls are taken to happen one after another.
- The text of 500 error bodies: a `Failure` value stands for the exception message.
- `do_GET`, which answers a fixed list of two models; `main` and its argparse, environment and
  cookie-pool parsing; logging.
