/** The chat-completions dispatcher: body parsing, the optional rate-limit
    check, setting up an upstream chat session, driving it through prepare and
    send, and closing it on every path. Each awaited call into code that is not
    part of this model (the body parser, the rate limiter and the session's
    stages) is an outcome supplied by the caller. */
module Dispatch {

  /** A JSON value as the handlers pass it around. Objects keep their fields in order. */
  datatype Json =
    | Null
    | Bool(b: bool)
    | Num(n: int)
    | Str(s: string)
    | Arr(items: seq<Json>)
    | Obj(fields: seq<(string, Json)>)

  /** Python truthiness of a decoded JSON value: `None`, `False`, zero and
      empty strings, lists and dicts are false. */
  predicate Truthy(v: Json)
  {
    match v
    case Null => false
    case Bool(b) => b
    case Num(n) => n != 0
    case Str(s) => s != []
    case Arr(items) => items != []
    case Obj(fields) => fields != []
  }

  /** An exception raised by a stage: an `HTTPException` with its status code,
      detail and response headers, or any other subclass of `Exception`, whose
      message is only logged. Exceptions outside `Exception` (cancellation,
      `KeyboardInterrupt`, `SystemExit`) are not modelled. */
  datatype Failure = HttpErr(status: int, detail: Json, headers: seq<(string, string)>) | OtherErr(message: string)

  /** How one awaited stage ends: with a value, or by raising. */
  datatype Outcome<T> = Ok(value: T) | Fail(failure: Failure)

  /** What the session's send stage produces: an async generator of event
      chunks, a single payload that serialises to JSON, or a payload that
      `JSONResponse` fails to serialise (a NaN, an object JSON cannot hold),
      with the message of the exception it raises. */
  datatype SendResult = EventStream(chunks: seq<string>) | Payload(body: Json) | Unserialisable(message: string)

  /** How each stage of one upstream chat session ends, in the order the
      dispatcher awaits them. */
  datatype Upstream = Upstream(
    dynamicData: Outcome<()>,
    requirements: Outcome<()>,
    prepare: Outcome<()>,
    send: Outcome<SendResult>)

  /** The rate-limit configuration: whether limiting is on, and the status a
      denial is answered with (already converted to an integer). */
  datatype LimitConfig = LimitConfig(enabled: bool, statusCode: int)

  /** What the client gets: a streamed response, a JSON response, or an
      exception that escapes the handler. */
  datatype Reply =
    | Streaming(chunks: seq<string>, mediaType: string)
    | JsonReply(body: Json, mediaType: string)
    | Raised(error: Failure)

  const ServerError: Failure := HttpErr(500, Str("Server error"), [])
  const InvalidJsonBody: Failure := HttpErr(400, Obj([("error", Str("Invalid JSON body"))]), [])

  /** The two `except` clauses around the session's stages: an `HTTPException`
      is replaced by a new one with the same status and detail, and no headers;
      anything else is logged and replaced by a 500 "Server error". */
  function Reraise(f: Failure): Failure
  {
    match f
    case HttpErr(status, detail, _) => HttpErr(status, detail, [])
    case OtherErr(_) => ServerError
  }

  /** What setting up a session ends with: the first failing stage of
      dynamic-data setup and the requirements handshake, mapped by `Reraise`. */
  function Setup(u: Upstream): Outcome<()>
  {
    if u.dynamicData.Fail? then Fail(Reraise(u.dynamicData.failure))
    else if u.requirements.Fail? then Fail(Reraise(u.requirements.failure))
    else Ok(())
  }

  /** The response built around a successful send: an event stream for an
      async generator, a JSON response otherwise. A payload that cannot be
      serialised makes the `JSONResponse` constructor raise inside the `try`,
      so it ends like any other non-HTTP exception. */
  function Respond(r: SendResult): Reply
  {
    match r
    case EventStream(chunks) => Streaming(chunks, "text/event-stream")
    case Payload(body) => JsonReply(body, "application/json")
    case Unserialisable(message) => Raised(Reraise(OtherErr(message)))
  }

  /** `e` carries the status and detail of the `HTTPException` `f`. */
  predicate Restated(e: Failure, f: Failure)
  {
    e.HttpErr? && f.HttpErr? && e.status == f.status && e.detail == f.detail
  }

  /** Whether a request gets past body parsing and the rate limiter, so that a
      session is created for it. */
  predicate Admitted(body: Outcome<Json>, cfg: LimitConfig, limiter: Outcome<Json>)
  {
    body.Ok? && (!cfg.enabled || (limiter.Ok? && !Truthy(limiter.value)))
  }

  /** The reply the handler gives, as a function of how each stage ends. */
  function Expected(body: Outcome<Json>, cfg: LimitConfig, limiter: Outcome<Json>, u: Upstream): Reply
  {
    if body.Fail? then Raised(InvalidJsonBody)
    else if cfg.enabled && limiter.Fail? then Raised(limiter.failure)
    else if cfg.enabled && Truthy(limiter.value) then Raised(HttpErr(cfg.statusCode, limiter.value, []))
    else if Setup(u).Fail? then Raised(Setup(u).failure)
    else if u.prepare.Fail? then Raised(Reraise(u.prepare.failure))
    else if u.send.Fail? then Raised(Reraise(u.send.failure))
    else Respond(u.send.value)
  }

  /** One upstream chat session and the number of times its client was closed,
      right away or by a response's background task. */
  class ChatService {
    const accessToken: string
    /** How this session's stages will end. */
    const upstream: Upstream
    /** Calls of `close_client` made so far. */
    var closeCount: nat
    /** Calls of `close_client` attached to a response, to run once it is sent. */
    var deferredCloses: nat

    constructor (accessToken: string, upstream: Upstream)
      ensures this.accessToken == accessToken && this.upstream == upstream
      ensures closeCount == 0 && deferredCloses == 0
    {
      this.accessToken := accessToken;
      this.upstream := upstream;
      closeCount := 0;
      deferredCloses := 0;
    }

    /** Releases the upstream client now. */
    method CloseClient()
      modifies this
      ensures closeCount == old(closeCount) + 1 && deferredCloses == old(deferredCloses)
    {
      closeCount := closeCount + 1;
    }

    /** Attaches `close_client` to the response as its background task. */
    method DeferClose()
      modifies this
      ensures deferredCloses == old(deferredCloses) + 1 && closeCount == old(closeCount)
    {
      deferredCloses := deferredCloses + 1;
    }
  }

  /** Creates a session for `accessToken` and runs its setup stages. On success
      the session comes back unclosed; on failure it is closed exactly once and
      the mapped error is returned in place of raising it. */
  method ToSendConversation(accessToken: string, upstream: Upstream) returns (service: ChatService, r: Outcome<()>)
    ensures fresh(service) && service.accessToken == accessToken && service.upstream == upstream
    ensures r == Setup(upstream)
    ensures service.closeCount == (if r.Ok? then 0 else 1)
    ensures service.deferredCloses == 0
  {
    service := new ChatService(accessToken, upstream);
    var stage := service.upstream.dynamicData;
    if stage.Ok? {
      stage := service.upstream.requirements;
    }
    if stage.Fail? {
      service.CloseClient();
      r := Fail(Reraise(stage.failure));
    } else {
      r := Ok(());
    }
  }

  /** The chat-completions handler. `service` is the session it created, if
      any; `limiterConsulted` records whether the rate limiter was called. */
  method SendConversation(body: Outcome<Json>, token: string, cfg: LimitConfig, limiter: Outcome<Json>, upstream: Upstream)
    returns (reply: Reply, service: ChatService?, ghost limiterConsulted: bool)
    ensures reply == Expected(body, cfg, limiter, upstream)
    ensures limiterConsulted <==> body.Ok? && cfg.enabled
    ensures service != null <==> Admitted(body, cfg, limiter)
    ensures service != null ==> fresh(service) && service.accessToken == token && service.upstream == upstream
    ensures service != null ==> service.closeCount + service.deferredCloses == 1
    ensures service != null ==> (service.deferredCloses == 1 <==> !reply.Raised?)
  {
    service, limiterConsulted := null, false;
    if body.Fail? {
      return Raised(InvalidJsonBody), service, limiterConsulted;
    }
    if cfg.enabled {
      limiterConsulted := true;
      if limiter.Fail? {
        return Raised(limiter.failure), service, limiterConsulted;
      }
      if Truthy(limiter.value) {
        return Raised(HttpErr(cfg.statusCode, limiter.value, [])), service, limiterConsulted;
      }
    }
    var setup;
    service, setup := ToSendConversation(token, upstream);
    if setup.Fail? {
      return Raised(setup.failure), service, limiterConsulted;
    }
    var prepared := service.upstream.prepare;
    if prepared.Fail? {
      service.CloseClient();
      return Raised(Reraise(prepared.failure)), service, limiterConsulted;
    }
    var sent := service.upstream.send;
    if sent.Fail? {
      service.CloseClient();
      return Raised(Reraise(sent.failure)), service, limiterConsulted;
    }
    if sent.value.Unserialisable? {
      // the background task built for the response is dropped with it
      service.CloseClient();
      return Raised(Reraise(OtherErr(sent.value.message))), service, limiterConsulted;
    }
    service.DeferClose();
    reply := Respond(sent.value);
  }

  /** Every error the session stages can surface reaches the client as an
      `HTTPException` without headers; an `HTTPException` keeps its status and
      detail; mapping twice changes nothing; and what an `OtherErr` becomes
      does not depend on its message. */
  lemma ReraiseSpec(f: Failure, message: string)
    ensures Reraise(f).HttpErr? && Reraise(f).headers == []
    ensures Reraise(Reraise(f)) == Reraise(f)
    ensures f.HttpErr? ==> Reraise(f).status == f.status && Reraise(f).detail == f.detail
    ensures f.HttpErr? && f.headers == [] ==> Reraise(f) == f
    ensures f.OtherErr? ==> Reraise(f) == Reraise(OtherErr(message)) == HttpErr(500, Str("Server error"), [])
  {
  }

  /** A body that does not parse is answered with 400 and
      `{"error": "Invalid JSON body"}`, whatever the limiter and the upstream would do. */
  lemma MalformedBody(body: Outcome<Json>, cfg: LimitConfig, limiter: Outcome<Json>, u: Upstream)
    requires body.Fail?
    ensures Expected(body, cfg, limiter, u) == Raised(HttpErr(400, Obj([("error", Str("Invalid JSON body"))]), []))
  {
  }

  /** With limiting on, a truthy limiter answer becomes an `HTTPException` with
      the configured status and that answer as its detail, whatever the upstream would do. */
  lemma LimitDenial(body: Outcome<Json>, cfg: LimitConfig, answer: Json, u: Upstream)
    requires body.Ok? && cfg.enabled && Truthy(answer)
    ensures Expected(body, cfg, Ok(answer), u) == Raised(HttpErr(cfg.statusCode, answer, []))
  {
  }

  /** With limiting off, the limiter's answer has no effect on the reply. */
  lemma LimitDisabled(body: Outcome<Json>, cfg: LimitConfig, l1: Outcome<Json>, l2: Outcome<Json>, u: Upstream)
    requires !cfg.enabled
    ensures Expected(body, cfg, l1, u) == Expected(body, cfg, l2, u)
    ensures Admitted(body, cfg, l1) == Admitted(body, cfg, l2)
  {
  }

  /** Once a request is admitted, the first failing session stage decides the
      error, mapped by `Reraise`; a failure of an earlier stage hides what the
      later ones would do. */
  lemma StageFailures(body: Outcome<Json>, cfg: LimitConfig, limiter: Outcome<Json>, u: Upstream)
    requires Admitted(body, cfg, limiter)
    ensures u.dynamicData.Fail? ==> Expected(body, cfg, limiter, u) == Raised(Reraise(u.dynamicData.failure))
    ensures u.dynamicData.Ok? && u.requirements.Fail? ==>
      Expected(body, cfg, limiter, u) == Raised(Reraise(u.requirements.failure))
    ensures u.dynamicData.Ok? && u.requirements.Ok? && u.prepare.Fail? ==>
      Expected(body, cfg, limiter, u) == Raised(Reraise(u.prepare.failure))
    ensures u.dynamicData.Ok? && u.requirements.Ok? && u.prepare.Ok? && u.send.Fail? ==>
      Expected(body, cfg, limiter, u) == Raised(Reraise(u.send.failure))
  {
  }

  /** The handler answers with a response exactly when the request is admitted,
      every session stage succeeds and the result can be rendered; the response
      streams `text/event-stream` exactly when the send stage produced an async
      generator, and is `application/json` otherwise. A result that cannot be
      serialised is answered with 500 "Server error". */
  lemma SuccessfulReply(body: Outcome<Json>, cfg: LimitConfig, limiter: Outcome<Json>, u: Upstream)
    ensures !Expected(body, cfg, limiter, u).Raised? <==>
      Admitted(body, cfg, limiter) && u.dynamicData.Ok? && u.requirements.Ok? && u.prepare.Ok? && u.send.Ok?
      && !u.send.value.Unserialisable?
    ensures Admitted(body, cfg, limiter) && Setup(u).Ok? && u.prepare.Ok? && u.send.Ok? && u.send.value.Unserialisable? ==>
      Expected(body, cfg, limiter, u) == Raised(ServerError)
    ensures Expected(body, cfg, limiter, u).Streaming? <==>
      !Expected(body, cfg, limiter, u).Raised? && u.send.value.EventStream?
    ensures Expected(body, cfg, limiter, u).Streaming? ==>
      Expected(body, cfg, limiter, u) == Streaming(u.send.value.chunks, "text/event-stream")
    ensures Expected(body, cfg, limiter, u).JsonReply? ==>
      Expected(body, cfg, limiter, u) == JsonReply(u.send.value.body, "application/json")
  {
  }

  /** `o` with the message of a non-HTTP exception blanked out. */
  function Scrub<T>(o: Outcome<T>): Outcome<T>
  {
    if o.Fail? && o.failure.OtherErr? then Fail(OtherErr("")) else o
  }

  /** The send stage with the message of a non-HTTP exception, raised by the
      stage or by serialising its payload, blanked out. */
  function ScrubSend(o: Outcome<SendResult>): Outcome<SendResult>
  {
    if o.Ok? && o.value.Unserialisable? then Ok(Unserialisable("")) else Scrub(o)
  }

  /** The session stages with every non-HTTP exception message blanked out. */
  function ScrubAll(u: Upstream): Upstream
  {
    Upstream(Scrub(u.dynamicData), Scrub(u.requirements), Scrub(u.prepare), ScrubSend(u.send))
  }

  /** The text of an internal error raised by a session stage never reaches the
      client: blanking all such messages leaves the reply unchanged. */
  lemma NoInternalErrorText(body: Outcome<Json>, cfg: LimitConfig, limiter: Outcome<Json>, u: Upstream)
    ensures Expected(body, cfg, limiter, u) == Expected(body, cfg, limiter, ScrubAll(u))
  {
  }

  /** Unless the rate limiter itself raises, every error the client sees is an
      `HTTPException` without headers whose status is 400, the configured limit
      status, 500, or the status and detail of an `HTTPException` raised by a
      session stage. */
  lemma ErrorStatuses(body: Outcome<Json>, cfg: LimitConfig, limiter: Outcome<Json>, u: Upstream)
    requires !(cfg.enabled && limiter.Fail?)
    ensures var r := Expected(body, cfg, limiter, u);
      r.Raised? ==>
        (r.error.HttpErr? && r.error.headers == []
         && (r.error.status in {400, cfg.statusCode, 500}
             || (u.dynamicData.Fail? && Restated(r.error, u.dynamicData.failure))
             || (u.requirements.Fail? && Restated(r.error, u.requirements.failure))
             || (u.prepare.Fail? && Restated(r.error, u.prepare.failure))
             || (u.send.Fail? && Restated(r.error, u.send.failure))))
  {
  }
}
