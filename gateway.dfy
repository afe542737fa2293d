/**
 * The request handler `do_POST`: the checks a chat request passes in order, credential
 * selection, prompt assembly and flag resolution, then the upstream call and the emitter.
 */
module Gateway {
  import opened Wrappers
  import opened Text
  import Rotation
  import opened Prompt
  import opened Upstream
  import opened Classifier
  import opened Emitters

  const CompletionsPath := "/v1/chat/completions"
  const BearerPrefix := "Bearer "

  /** The value of the body's `grokCookies` field. */
  datatype CookieField = NoCookies | CookieString(cookie: string) | CookieList(cookies: seq<string>) | OtherValue

  /** The decoded request body; `None` stands for a field that is absent. */
  datatype Body = Body(
    grokCookies: CookieField,
    cookieIndex: Option<int>,
    messages: Option<seq<Message>>,
    textBeforePrompt: Option<string>,
    textAfterPrompt: Option<string>,
    model: Option<string>,
    stream: Option<bool>,
    enableSearch: Option<int>,
    uploadMessage: Option<int>,
    keepChat: Option<int>,
    ignoreThinking: Option<int>)

  /** A POST: its path, its `Authorization` header and its body. */
  datatype Request = Request(path: string, authorization: Option<string>, body: Body)

  /** The server-wide settings the handler reads. */
  datatype ServerConfig = ServerConfig(
    apiToken: string,
    grokCookies: seq<string>,
    textBeforePrompt: string,
    textAfterPrompt: string,
    keepChat: bool,
    ignoreThinking: bool)

  /**
   * How the checks end: an error page, an exception raised outside the handler's `try`
   * (the connection is dropped without a response), or a client and prompt to send upstream.
   */
  datatype Decision =
    | Reject(status: int, reason: string)
    | Abort
    | Forward(client: Client, message: string, stream: bool)

  /** The outcome of looking a credential up: a (possibly empty) cookie, or an IndexError. */
  datatype Lookup = Found(cookie: string) | IndexError

  /** The tri-state the integer flags encode: unset (absent or negative), on (positive), off (zero). */
  datatype TriState = Unset | On | Off

  function TriStateOf(v: Option<int>): TriState {
    match v
    case None => Unset
    case Some(x) => if x < 0 then Unset else if x > 0 then On else Off
  }

  /** A tri-state flag's value: an unset flag takes the default. */
  function FlagValue(t: TriState, default: bool): bool {
    match t
    case Unset => default
    case On => true
    case Off => false
  }

  /** `body.get(key, -1) > 0`: the flags `enableSearch` and `uploadMessage`, on only when set positive. */
  function Positive(v: Option<int>): (on: bool)
    ensures on <==> TriStateOf(v) == On
  {
    v.GetOr(-1) > 0
  }

  /**
   * `body.get(key, -1) > 0 if body.get(key, -1) >= 0 else default`: the flags `keepChat` and
   * `ignoreThinking`, which take the server's default when unset.
   */
  function ResolveFlag(v: Option<int>, default: bool): (on: bool)
    ensures on == FlagValue(TriStateOf(v), default)
  {
    var x := v.GetOr(-1);
    if x >= 0 then x > 0 else default
  }

  /** A single credential from a pool, as `pool[index]` reads it in Python. */
  function Pick(pool: seq<string>, index: int): (r: Lookup)
    ensures r.IndexError? <==> !(-|pool| <= index < |pool|)
    ensures r.Found? ==> r.cookie in pool
  {
    match PyIndex(pool, index)
    case Some(cookie) => Found(cookie)
    case None => IndexError
  }

  /**
   * The `grokCookies` branch of `do_POST`: the credential the body itself supplies. Only a non-empty list moves the
   * cursor, and only a negative `cookieIndex` can fall off the list.
   */
  function RequestCookie(body: Body, cursor: nat): (r: (Lookup, nat))
    ensures r.1 != cursor ==> body.grokCookies.CookieList? && body.grokCookies.cookies != []
    ensures r.0.IndexError? ==> body.grokCookies.CookieList? && body.cookieIndex.GetOr(0) < 0
  {
    match body.grokCookies
    case CookieString(s) => (Found(Strip(s)), cursor)
    case CookieList(xs) =>
      if xs == [] then (Found(""), cursor)
      else
        var (i, next) := Rotation.Select(cursor, |xs|, body.cookieIndex.GetOr(0));
        (ListEntry(xs, i), next)
    case _ => (Found(""), cursor)
  }

  /** `body["grokCookies"][cookie_index].strip()`: the list entry at `i`, stripped. */
  function ListEntry(xs: seq<string>, i: int): Lookup
  {
    match Pick(xs, i)
    case Found(c) => Found(Strip(c))
    case IndexError => IndexError
  }

  /** The body's credential is always stripped: it neither starts nor ends with whitespace. */
  lemma BodyCookieTrimmed(body: Body, cursor: nat)
    ensures RequestCookie(body, cursor).0.Found? ==> Trimmed(RequestCookie(body, cursor).0.cookie)
  {
  }

  /**
   * The credential lookup of `do_POST`: the body's credential, or else one from the server's pool. A non-empty
   * credential from the body is used as it is; anything else comes from the pool, and only a
   * negative `cookieIndex` can fall off either list.
   */
  function ResolveCookie(cfg: ServerConfig, body: Body, cursor: nat): (r: (Lookup, nat))
    ensures RequestCookie(body, cursor).0 != Found("") ==> r == RequestCookie(body, cursor)
    ensures r != RequestCookie(body, cursor) ==>
      cfg.grokCookies != [] && (r.0.IndexError? || r.0.cookie in cfg.grokCookies)
    ensures r.0.IndexError? ==> body.cookieIndex.GetOr(0) < 0
  {
    var (lookup, next) := RequestCookie(body, cursor);
    if lookup == Found("") && cfg.grokCookies != [] then
      var (i, last) := Rotation.Select(next, |cfg.grokCookies|, body.cookieIndex.GetOr(0));
      (Pick(cfg.grokCookies, i), last)
    else
      (lookup, next)
  }

  /**
   * The `GrokClient` that `do_POST` builds from the body's flags and the server defaults: reasoning
   * when the stripped model name is the reasoning model's, search and upload only when set
   * positive, the other two flags falling back to the server's settings when unset.
   */
  function ClientFor(cfg: ServerConfig, body: Body, cookie: string): (c: Client)
    ensures c.cookie == cookie
    ensures c.ModelName() == if Strip(body.model.GetOr("")) == Grok3ReasoningModelName then Grok3ReasoningModelName else Grok3ModelName
    ensures c.enableSearch <==> TriStateOf(body.enableSearch) == On
    ensures c.uploadMessage <==> TriStateOf(body.uploadMessage) == On
    ensures c.keepChat == FlagValue(TriStateOf(body.keepChat), cfg.keepChat)
    ensures c.ignoreThinking == FlagValue(TriStateOf(body.ignoreThinking), cfg.ignoreThinking)
  {
    Client(
      cookie,
      Strip(body.model.GetOr("")) == Grok3ReasoningModelName,
      Positive(body.enableSearch),
      Positive(body.uploadMessage),
      ResolveFlag(body.keepChat, cfg.keepChat),
      ResolveFlag(body.ignoreThinking, cfg.ignoreThinking))
  }

  predicate NoMessages(body: Body) {
    body.messages.None? || body.messages.value == []
  }

  /** The token the `Authorization` header carries after "Bearer ", with surrounding whitespace dropped. */
  function BearerToken(auth: string): (token: string)
    requires StartsWith(auth, BearerPrefix)
    ensures |BearerPrefix| + |token| <= |auth|
    ensures Trimmed(token)
  {
    Strip(auth[|BearerPrefix|..])
  }

  /**
   * `do_POST` once the request is authenticated: the credential, then the messages, then
   * the prompt and the client. Every refusal here is a 400, a forwarded request carries a
   * non-empty credential and messages, and the connection is dropped only for a negative
   * `cookieIndex`.
   */
  function DecideAuthorized(cfg: ServerConfig, body: Body, cursor: nat): (r: (Decision, nat))
    ensures r.0.Reject? ==> r.0.status == 400
    ensures r.0.Forward? ==> r.0.client.cookie != "" && !NoMessages(body)
    ensures r.0.Abort? ==> body.cookieIndex.GetOr(0) < 0
  {
    var (lookup, next) := ResolveCookie(cfg, body, cursor);
    if lookup.IndexError? then (Abort, next)
    else if lookup.cookie == "" then (Reject(400, "Error: No Grok 3 cookie"), next)
    else if NoMessages(body) then (Reject(400, "Bad Request: No messages provided"), next)
    else
      var before := body.textBeforePrompt.GetOr(cfg.textBeforePrompt);
      var after := body.textAfterPrompt.GetOr(cfg.textAfterPrompt);
      (Forward(ClientFor(cfg, body, lookup.cookie),
               AssembleMessage(before, body.messages.value, after),
               body.stream.GetOr(false)),
       next)
  }

  /**
   * `do_POST` up to the upstream call: the decision and the rotation cursor it
   * leaves. Every refusal is a 400, 401 or 404, and a 401 or 404 never moves the cursor.
   */
  function Decide(cfg: ServerConfig, req: Request, cursor: nat): (r: (Decision, nat))
    ensures r.0.Reject? ==> r.0.status == 400 || r.0.status == 401 || r.0.status == 404
    ensures r.0.Reject? && r.0.status != 400 ==> r.1 == cursor
    ensures r.0.Abort? ==> req.body.cookieIndex.GetOr(0) < 0
  {
    var auth := req.authorization.GetOr("");
    if req.path != CompletionsPath then (Reject(404, "Requested Path Not Found"), cursor)
    else if !StartsWith(auth, BearerPrefix) then (Reject(401, "Unauthorized: Bearer token required"), cursor)
    else if BearerToken(auth) != cfg.apiToken then (Reject(401, "Unauthorized: Invalid token"), cursor)
    else DecideAuthorized(cfg, req.body, cursor)
  }

  /** The `grokCookies` branch of `do_POST`: the body's own credential, drawing from the shared rotator for a list. */
  method DrawRequestCookie(rotator: Rotation.CookieRotator, body: Body) returns (lookup: Lookup)
    modifies rotator
    ensures (lookup, rotator.cursor) == RequestCookie(body, old(rotator.cursor))
  {
    lookup := Found("");
    match body.grokCookies {
      case CookieString(s) =>
        lookup := Found(Strip(s));
      case CookieList(xs) =>
        if xs != [] {
          var i := rotator.GetCookieIndex(|xs|, body.cookieIndex.GetOr(0));
          lookup := ListEntry(xs, i);
        }
      case NoCookies =>
      case OtherValue =>
    }
  }

  /** The credential lookup of `do_POST`, falling back to the server pool. */
  method DrawCookie(cfg: ServerConfig, rotator: Rotation.CookieRotator, body: Body) returns (lookup: Lookup)
    modifies rotator
    ensures (lookup, rotator.cursor) == ResolveCookie(cfg, body, old(rotator.cursor))
  {
    lookup := DrawRequestCookie(rotator, body);
    if lookup == Found("") && cfg.grokCookies != [] {
      var i := rotator.GetCookieIndex(|cfg.grokCookies|, body.cookieIndex.GetOr(0));
      lookup := Pick(cfg.grokCookies, i);
    }
  }

  /** `do_POST` up to the upstream call, drawing credentials from the shared rotator. */
  method HandlePost(cfg: ServerConfig, rotator: Rotation.CookieRotator, req: Request) returns (d: Decision)
    modifies rotator
    ensures (d, rotator.cursor) == Decide(cfg, req, old(rotator.cursor))
  {
    if req.path != CompletionsPath {
      return Reject(404, "Requested Path Not Found");
    }
    var auth := req.authorization.GetOr("");
    if !StartsWith(auth, BearerPrefix) {
      return Reject(401, "Unauthorized: Bearer token required");
    }
    var token := Strip(auth[|BearerPrefix|..]);
    if token != cfg.apiToken {
      return Reject(401, "Unauthorized: Invalid token");
    }
    d := HandleAuthorized(cfg, rotator, req.body);
  }

  /** `do_POST` from the credential lookup to the upstream call, for an authenticated request. */
  method HandleAuthorized(cfg: ServerConfig, rotator: Rotation.CookieRotator, body: Body) returns (d: Decision)
    modifies rotator
    ensures (d, rotator.cursor) == DecideAuthorized(cfg, body, old(rotator.cursor))
  {
    var lookup := DrawCookie(cfg, rotator, body);
    if lookup.IndexError? {
      return Abort;
    }
    var cookie := lookup.cookie;
    if cookie == "" {
      return Reject(400, "Error: No Grok 3 cookie");
    }
    if body.messages.None? || body.messages.value == [] {
      return Reject(400, "Bad Request: No messages provided");
    }
    var before := body.textBeforePrompt.GetOr(cfg.textBeforePrompt);
    var after := body.textAfterPrompt.GetOr(cfg.textAfterPrompt);
    var message := BuildMessage(before, body.messages.value, after);
    var client := ClientFor(cfg, body, cookie);
    d := Forward(client, message, body.stream.GetOr(false));
  }

  /** What the client receives. */
  datatype Response =
    | ErrorPage(status: int, reason: string)   // `send_error` before the upstream call
    | UpstreamFailure(failure: Failure)        // `send_error(500, ...)` from the `except` branch
    | ConnectionDropped                        // an exception escaped `do_POST`
    | EventStream(events: seq<Event>)
    | JsonCompletion(completion: Completion)

  /**
   * The `try` block of `do_POST` for a forwarded request: the upload (when required), the chat call with
   * status `chatStatus`, then the emitter the `stream` flag chooses over the upstream's `lines`.
   */
  function Reply(client: Client, message: string, stream: bool, upload: UploadReply, chatStatus: int, lines: seq<Line>): (r: Response)
    ensures r.UpstreamFailure? <==> SendMessage(client, message, upload).Err? || chatStatus != 200
    ensures r.EventStream? <==> !r.UpstreamFailure? && stream
    ensures r.JsonCompletion? <==> !r.UpstreamFailure? && !stream
    ensures r.EventStream? ==> r.events == StreamEvents(client.ModelName(), Classify(lines, client.ignoreThinking))
    ensures r.EventStream? ==> StreamedText(r.events) == Join(Classify(lines, client.ignoreThinking))
    ensures r.JsonCompletion? ==> r.completion.model == client.ModelName()
    ensures r.JsonCompletion? ==> r.completion.content == Join(Classify(lines, client.ignoreThinking))
  {
    match SendMessage(client, message, upload)
    case Err(failure) => UpstreamFailure(failure)
    case Ok(_) =>
      if chatStatus != 200 then UpstreamFailure(HttpStatus(chatStatus))
      else
        var fragments := Classify(lines, client.ignoreThinking);
        EmittersAgree(client.ModelName(), fragments);
        if stream then EventStream(StreamEvents(client.ModelName(), fragments))
        else JsonCompletion(Completion(client.ModelName(), Join(fragments)))
  }

  /**
   * The response a decision leads to: an error page exactly for a refusal, with its status and
   * reason, and a dropped connection exactly for an abort.
   */
  function Outcome(d: Decision, upload: UploadReply, chatStatus: int, lines: seq<Line>): (r: Response)
    ensures r.ErrorPage? <==> d.Reject?
    ensures r.ConnectionDropped? <==> d.Abort?
    ensures d.Reject? ==> r.status == d.status && r.reason == d.reason
  {
    match d
    case Reject(status, reason) => ErrorPage(status, reason)
    case Abort => ConnectionDropped
    case Forward(client, message, stream) => Reply(client, message, stream, upload, chatStatus, lines)
  }

  /** The end of `do_POST`: acting on a decision, with the upstream's replies given as parameters. */
  method Respond(d: Decision, upload: UploadReply, chatStatus: int, lines: seq<Line>) returns (resp: Response)
    ensures resp == Outcome(d, upload, chatStatus, lines)
  {
    match d {
      case Reject(status, reason) =>
        resp := ErrorPage(status, reason);
      case Abort =>
        resp := ConnectionDropped;
      case Forward(client, message, stream) =>
        var sent := SendMessage(client, message, upload);
        if sent.Err? {
          resp := UpstreamFailure(sent.error);
        } else if chatStatus != 200 {
          resp := UpstreamFailure(HttpStatus(chatStatus));
        } else if stream {
          var events := CreateStreamingResponse(client, lines);
          resp := EventStream(events);
        } else {
          var completion := CreateFullResponse(client, lines);
          resp := JsonCompletion(completion);
        }
    }
  }

  /** `do_POST` as a whole. */
  method Serve(cfg: ServerConfig, rotator: Rotation.CookieRotator, req: Request,
               upload: UploadReply, chatStatus: int, lines: seq<Line>) returns (resp: Response)
    modifies rotator
    ensures var (d, next) := Decide(cfg, req, old(rotator.cursor));
      rotator.cursor == next && resp == Outcome(d, upload, chatStatus, lines)
  {
    var d := HandlePost(cfg, rotator, req);
    resp := Respond(d, upload, chatStatus, lines);
  }

  /** The path is checked first: any other path is a 404, whatever else the request holds, and no credential is drawn. */
  lemma PathCheckedFirst(cfg: ServerConfig, req: Request, cursor: nat)
    requires req.path != CompletionsPath
    ensures Decide(cfg, req, cursor) == (Reject(404, "Requested Path Not Found"), cursor)
  {
  }

  /**
   * Authentication comes before credentials and messages: without a matching bearer token
   * the request is a 401 and the rotation cursor does not move.
   */
  lemma TokenCheckedBeforeCredentials(cfg: ServerConfig, req: Request, cursor: nat)
    requires req.path == CompletionsPath
    requires var auth := req.authorization.GetOr("");
      !StartsWith(auth, BearerPrefix) || BearerToken(auth) != cfg.apiToken
    ensures var (d, next) := Decide(cfg, req, cursor);
      d.Reject? && d.status == 401 && next == cursor
  {
  }

  /** Whitespace around the token is dropped: the padded token reads back as the token itself. */
  lemma PaddedBearerToken(before: string, token: string, after: string)
    requires AllSpace(before) && AllSpace(after)
    requires token != [] && Trimmed(token)
    ensures StartsWith(BearerPrefix + before + token + after, BearerPrefix)
    ensures BearerToken(BearerPrefix + before + token + after) == token
  {
    var auth := BearerPrefix + before + token + after;
    var rest := before + token + after;
    assert auth == BearerPrefix + rest;
    assert auth[..|BearerPrefix|] == BearerPrefix;
    assert auth[|BearerPrefix|..] == rest;
    StripOfPadded(before, token, after);
  }

  /**
   * Whitespace around the token is ignored: a header holding the server's token padded with
   * whitespace passes both authentication checks.
   */
  lemma PaddedTokenAccepted(cfg: ServerConfig, req: Request, cursor: nat, before: string, after: string)
    requires req.path == CompletionsPath
    requires req.authorization == Some(BearerPrefix + before + cfg.apiToken + after)
    requires AllSpace(before) && AllSpace(after)
    requires cfg.apiToken != [] && Trimmed(cfg.apiToken)
    ensures var d := Decide(cfg, req, cursor).0;
      !(d.Reject? && d.status == 401)
  {
    PaddedBearerToken(before, cfg.apiToken, after);
  }

  /** A request without messages is never sent upstream: it is refused or dropped before any upstream call. */
  lemma EmptyMessagesRejected(cfg: ServerConfig, req: Request, cursor: nat)
    requires NoMessages(req.body)
    ensures var d := Decide(cfg, req, cursor).0;
      d.Abort? || (d.Reject? && (d.status == 400 || d.status == 401 || d.status == 404))
  {
  }

  /** Once the path, the token and the credential are good, missing messages are the 400 that follows. */
  lemma MessagesCheckedAfterCredential(cfg: ServerConfig, req: Request, cursor: nat, cookie: string)
    requires req.path == CompletionsPath
    requires StartsWith(req.authorization.GetOr(""), BearerPrefix)
    requires BearerToken(req.authorization.GetOr("")) == cfg.apiToken
    requires ResolveCookie(cfg, req.body, cursor).0 == Found(cookie) && cookie != ""
    requires NoMessages(req.body)
    ensures Decide(cfg, req, cursor) == (Reject(400, "Bad Request: No messages provided"), ResolveCookie(cfg, req.body, cursor).1)
  {
  }

  /**
   * A forwarded request passed every check in order, carries a non-empty credential, the
   * assembled prompt, and flags resolved against the server defaults.
   */
  lemma ForwardedRequest(cfg: ServerConfig, req: Request, cursor: nat)
    requires Decide(cfg, req, cursor).0.Forward?
    ensures var d := Decide(cfg, req, cursor).0;
      var body := req.body;
      && req.path == CompletionsPath
      && StartsWith(req.authorization.GetOr(""), BearerPrefix)
      && BearerToken(req.authorization.GetOr("")) == cfg.apiToken
      && body.messages.Some? && body.messages.value != []
      && d.client.cookie != ""
      && d.message == AssembleMessage(body.textBeforePrompt.GetOr(cfg.textBeforePrompt), body.messages.value,
                                      body.textAfterPrompt.GetOr(cfg.textAfterPrompt))
      && d.client.isReasoning == (Strip(body.model.GetOr("")) == Grok3ReasoningModelName)
      && d.client.enableSearch == (body.enableSearch.GetOr(-1) > 0)
      && d.client.uploadMessage == (body.uploadMessage.GetOr(-1) > 0)
      && d.client.keepChat == (if body.keepChat.GetOr(-1) < 0 then cfg.keepChat else body.keepChat.GetOr(-1) > 0)
      && d.client.ignoreThinking == (if body.ignoreThinking.GetOr(-1) < 0 then cfg.ignoreThinking else body.ignoreThinking.GetOr(-1) > 0)
      && d.stream == body.stream.GetOr(false)
  {
  }

  /** A cookie string in the body selects that credential, stripped, without touching the cursor. */
  lemma StringCookieUsed(cfg: ServerConfig, body: Body, cursor: nat, s: string)
    requires body.grokCookies == CookieString(s) && Strip(s) != ""
    ensures ResolveCookie(cfg, body, cursor) == (Found(Strip(s)), cursor)
  {
  }

  /** An explicit index into the body's list selects that entry without touching the cursor. */
  lemma ExplicitListCookieUsed(cfg: ServerConfig, body: Body, cursor: nat, xs: seq<string>, k: int)
    requires body.grokCookies == CookieList(xs) && body.cookieIndex == Some(k)
    requires 1 <= k <= |xs| && Strip(xs[k - 1]) != ""
    ensures ResolveCookie(cfg, body, cursor) == (Found(Strip(xs[k - 1])), cursor)
  {
    ExplicitListEntry(body, cursor, xs, k);
  }

  /** The body's own credential for an explicit index into its list. */
  lemma ExplicitListEntry(body: Body, cursor: nat, xs: seq<string>, k: int)
    requires body.grokCookies == CookieList(xs) && body.cookieIndex == Some(k)
    requires 1 <= k <= |xs|
    ensures RequestCookie(body, cursor) == (Found(Strip(xs[k - 1])), cursor)
  {
    ListDraw(body, cursor, xs);
    assert Rotation.Select(cursor, |xs|, k) == (k - 1, cursor);
    ListEntryAt(xs, k - 1, k - 1);
  }

  /** A draw from a non-empty body list is the stripped entry at the index `Select` gives, with its cursor. */
  lemma ListDraw(body: Body, cursor: nat, xs: seq<string>)
    requires body.grokCookies == CookieList(xs) && xs != []
    ensures var (i, next) := Rotation.Select(cursor, |xs|, body.cookieIndex.GetOr(0));
      RequestCookie(body, cursor) == (ListEntry(xs, i), next)
  {
  }

  /** A list index in Python's range reads the entry at position `j`, stripped. */
  lemma ListEntryAt(xs: seq<string>, i: int, j: nat)
    requires -|xs| <= i < |xs| && j == (if i < 0 then |xs| + i else i)
    ensures ListEntry(xs, i) == Found(Strip(xs[j]))
  {
    assert Pick(xs, i) == Found(xs[j]);
  }

  /** A rotating draw from the body's list takes the entry at the cursor, stripped, and advances the cursor. */
  lemma ListRotates(body: Body, cursor: nat, xs: seq<string>)
    requires body.grokCookies == CookieList(xs) && xs != []
    requires Rotation.Rotates(|xs|, body.cookieIndex.GetOr(0))
    ensures RequestCookie(body, cursor) == (Found(Strip(xs[cursor % |xs|])), (cursor + 1) % |xs|)
  {
    var i := cursor % |xs|;
    ListDraw(body, cursor, xs);
    assert Rotation.Select(cursor, |xs|, body.cookieIndex.GetOr(0)) == (i, (cursor + 1) % |xs|);
    ListEntryAt(xs, i, i);
  }

  /** A negative `cookieIndex` above `-length` counts from the end of the body's list. */
  lemma ListNegative(body: Body, cursor: nat, xs: seq<string>, k: int)
    requires body.grokCookies == CookieList(xs) && body.cookieIndex == Some(k)
    requires -|xs| < k < 0
    ensures RequestCookie(body, cursor) == (Found(Strip(xs[|xs| + k - 1])), cursor)
  {
    ListDraw(body, cursor, xs);
    assert Rotation.Select(cursor, |xs|, k) == (k - 1, cursor);
    ListEntryAt(xs, k - 1, |xs| + k - 1);
  }

  /** Drawing from a non-empty body list raises IndexError exactly when `cookieIndex <= -length`. */
  lemma ListIndexErrorIff(body: Body, cursor: nat, xs: seq<string>)
    requires body.grokCookies == CookieList(xs) && xs != []
    ensures RequestCookie(body, cursor).0.IndexError? <==> body.cookieIndex.GetOr(0) <= -|xs|
  {
    var k := body.cookieIndex.GetOr(0);
    var (i, next) := Rotation.Select(cursor, |xs|, k);
    assert RequestCookie(body, cursor).0 == ListEntry(xs, i);
    assert ListEntry(xs, i).IndexError? <==> Pick(xs, i).IndexError?;
  }

  /** When the body gives no cookie, an explicit 1-based index selects that pool entry, unstripped. */
  lemma PoolExplicit(cfg: ServerConfig, body: Body, cursor: nat, k: int)
    requires RequestCookie(body, cursor).0 == Found("")
    requires body.cookieIndex == Some(k) && 1 <= k <= |cfg.grokCookies|
    ensures ResolveCookie(cfg, body, cursor) == (Found(cfg.grokCookies[k - 1]), RequestCookie(body, cursor).1)
  {
    var next := RequestCookie(body, cursor).1;
    assert Rotation.Select(next, |cfg.grokCookies|, k) == (k - 1, next);
    assert Pick(cfg.grokCookies, k - 1) == Found(cfg.grokCookies[k - 1]);
  }

  /** When the body gives no cookie, a negative `cookieIndex` above `-length` counts from the end of the pool. */
  lemma PoolNegative(cfg: ServerConfig, body: Body, cursor: nat, k: int)
    requires RequestCookie(body, cursor).0 == Found("")
    requires body.cookieIndex == Some(k) && -|cfg.grokCookies| < k < 0
    ensures var n := |cfg.grokCookies|;
      ResolveCookie(cfg, body, cursor) == (Found(cfg.grokCookies[n + k - 1]), RequestCookie(body, cursor).1)
  {
    var n := |cfg.grokCookies|;
    var next := RequestCookie(body, cursor).1;
    assert Rotation.Select(next, n, k) == (k - 1, next);
    assert Pick(cfg.grokCookies, k - 1) == Found(cfg.grokCookies[n + k - 1]);
  }

  /** When the body gives no cookie, drawing from a non-empty pool raises IndexError exactly when `cookieIndex <= -length`. */
  lemma PoolIndexErrorIff(cfg: ServerConfig, body: Body, cursor: nat)
    requires RequestCookie(body, cursor).0 == Found("") && cfg.grokCookies != []
    ensures ResolveCookie(cfg, body, cursor).0.IndexError? <==> body.cookieIndex.GetOr(0) <= -|cfg.grokCookies|
  {
    var (i, last) := Rotation.Select(RequestCookie(body, cursor).1, |cfg.grokCookies|, body.cookieIndex.GetOr(0));
    assert ResolveCookie(cfg, body, cursor).0 == Pick(cfg.grokCookies, i);
  }

  /**
   * When the body gives no usable cookie, a rotating index takes the pool entry at the cursor
   * the body's draw left, unstripped, and advances that cursor once more.
   */
  lemma PoolRotates(cfg: ServerConfig, body: Body, cursor: nat)
    requires RequestCookie(body, cursor).0 == Found("") && cfg.grokCookies != []
    requires Rotation.Rotates(|cfg.grokCookies|, body.cookieIndex.GetOr(0))
    ensures var n := |cfg.grokCookies|;
      var next := RequestCookie(body, cursor).1;
      ResolveCookie(cfg, body, cursor) == (Found(cfg.grokCookies[next % n]), (next + 1) % n)
  {
  }

  /**
   * A blank entry in a rotating body list moves the shared cursor twice: once for the body's
   * list, whose entry strips to "", and once more for the server pool it falls back to.
   */
  lemma BlankEntryMovesCursorTwice(cfg: ServerConfig, body: Body)
    requires body.grokCookies == CookieList([""]) && body.cookieIndex.None?
    requires cfg.grokCookies == ["p0", "p1", "p2"]
    ensures ResolveCookie(cfg, body, 5) == (Found("p0"), 1)
  {
    ListDraw(body, 5, [""]);
    assert Rotation.Select(5, 1, 0) == (0, 0);
    ListEntryAt([""], 0, 0);
    StripTrimmed("");
    assert RequestCookie(body, 5) == (Found(""), 0);
    PoolRotates(cfg, body, 5);
  }

  /**
   * Streaming and non-streaming answers to the same upstream reply agree: the deltas of the
   * event stream concatenate to the full response's content.
   */
  lemma StreamingMatchesFull(client: Client, message: string, upload: UploadReply, chatStatus: int, lines: seq<Line>)
    requires Reply(client, message, true, upload, chatStatus, lines).EventStream?
    ensures Reply(client, message, false, upload, chatStatus, lines).JsonCompletion?
    ensures StreamedText(Reply(client, message, true, upload, chatStatus, lines).events)
         == Reply(client, message, false, upload, chatStatus, lines).completion.content
  {
    EmittersAgree(client.ModelName(), Classify(lines, client.ignoreThinking));
  }
}
