/**
 The default middleware stack: request ID, recovery, error handling, logging and rate
 limiting, run by the chain executor around an arbitrary handler.
 */
module Stack {
  import opened GoErrors
  import opened Chain
  import RateLimiter

  datatype Request = Request(verb: string, path: string, ip: string, idHeader: string, freshId: string,
                             now: int, until: int)

  /** `writeOk(i)` tells whether the i-th response write of the middlewares succeeds. */
  datatype Config = Config(skipPaths: set<string>, limits: RateLimiter.Config, maskInternal: bool, writeOk: nat -> bool)

  /** A JSON error body: an `ErrorResponse`, or the rate limiter's own body. */
  datatype Body =
    | ErrorBody(error: string, kind: string, code: string, message: string, details: string, path: string,
                requestId: string)
    | LimitBody(retryAfter: int, limit: int)

  /** `error` is the text of the error, or "" when there is none. */
  datatype AuditEntry = AuditEntry(requestId: string, path: string, status: int, error: string,
                                   action: string, resourceType: string, resourceName: string)

  /** What the middlewares and the handler share. `bodies` holds the error bodies written. */
  datatype World = World(requestId: string, bodies: seq<Body>, writes: nat, audits: seq<AuditEntry>,
                         limiter: RateLimiter.State)

  // ---------------------------------------------------------------------------
  // The error handler
  // ---------------------------------------------------------------------------

  /** The first application error in the chain of wrapped errors. */
  function FindApp(e: GoError): Option<AppError> {
    match e
    case App(app) => Some(app)
    case Other(_, Some(inner)) => FindApp(inner)
    case Other(_, None) => None
  }

  function ErrorText(e: GoError): string {
    match e
    case Other(text, _) => text
    case App(app) =>
      if app.cause.Some? then app.code + ": " + app.message + " (caused by: " + ErrorText(app.cause.value) + ")"
      else app.code + ": " + app.message
  }

  function ConvertToAppError(e: GoError): AppError {
    var app := FindApp(e);
    if app.Some? then app.value
    else AppError("INTERNAL_ERROR", "INTERNAL_ERROR", "Internal server error", ErrorText(e), 500, Some(e))
  }

  function Render(cfg: Config, req: Request, w: World, app: AppError): Body {
    if cfg.maskInternal && app.status >= 500 then
      ErrorBody("Internal server error", app.kind, app.code, "An unexpected error occurred", "", req.path, w.requestId)
    else
      ErrorBody(app.message, app.kind, app.code, app.message, app.details, req.path, w.requestId)
  }

  const WRITE_ERROR := Other("response write failed", None)
  const NIL_ERROR_CALL := PanicError(Other("runtime error: invalid memory address or nil pointer dereference", None))

  function WriteJson(cfg: Config, w: World, body: Body): (World, Outcome) {
    if cfg.writeOk(w.writes) then (w.(bodies := w.bodies + [body], writes := w.writes + 1), Ok)
    else (w.(writes := w.writes + 1), Failed(WRITE_ERROR))
  }

  /** Logging a server error calls `Error()` on its cause, which panics when there is none. */
  predicate LoggerPanics(app: AppError) {
    app.status >= 500 && app.cause.None?
  }

  function HandleError(cfg: Config, req: Request, w: World, e: GoError): (World, Outcome) {
    var app := ConvertToAppError(e);
    if LoggerPanics(app) then (w, Panicked(NIL_ERROR_CALL))
    else WriteJson(cfg, w, Render(cfg, req, w, app))
  }

  /** The error a recovered panic is turned into. */
  function PanicCause(v: PanicValue): GoError {
    match v
    case PanicError(e) => e
    case PanicText(text) => Other(text, None)
    case PanicOther(shown) => Other("panic: " + shown, None)
  }

  function RecoveredError(v: PanicValue): AppError {
    var cause := PanicCause(v);
    AppError("PANIC_RECOVERED", "PANIC_RECOVERED", "An unexpected error occurred", ErrorText(cause), 500, Some(cause))
  }

  // ---------------------------------------------------------------------------
  // The middlewares as programs
  // ---------------------------------------------------------------------------

  /** The last `Next()` call: the world it was prepared in, and its result. */
  function Last(w: World, past: seq<Seen<World>>): Seen<World> {
    if past == [] then Seen(w, Ok) else past[|past| - 1]
  }

  /**
   Code that ends at `before`, or calls `Next()` once and goes on with `after`, which
   also has what the code read at its start.
   */
  function Around(before: World -> (World, Action), after: (World, World, Outcome) -> (World, Outcome))
    : Program<World>
  {
    Segment((w: World, _) => before(w),
            Finish((w: World, past) => after(Last(w, past).world, w, Last(w, past).out)))
  }

  function PassOn(w: World): (World, Action) {
    (w, CallNext)
  }

  function Return(start: World, w: World, out: Outcome): (World, Outcome) {
    (w, out)
  }

  function Identified(req: Request, w: World): World {
    w.(requestId := if req.idHeader == "" then req.freshId else req.idHeader)
  }

  function RequestID(req: Request): Program<World> {
    Around(w => (Identified(req, w), CallNext), Return)
  }

  /** The deferred function: turns a panic into a written error and a nil return. */
  function Recover(cfg: Config, req: Request, w: World, out: Outcome): (World, Outcome) {
    if !out.Panicked? then (w, out) else
      var (w', handled) := HandleError(cfg, req, w, App(RecoveredError(out.value)));
      (w', if handled.Panicked? then handled else Ok)
  }

  function Recovery(cfg: Config, req: Request): Program<World> {
    Around(PassOn, (_, w, out) => Recover(cfg, req, w, out))
  }

  function HandleResult(cfg: Config, req: Request, w: World, out: Outcome): (World, Outcome) {
    if out.Failed? then HandleError(cfg, req, w, out.error) else (w, out)
  }

  function ErrorHandling(cfg: Config, req: Request): Program<World> {
    Around(PassOn, (_, w, out) => HandleResult(cfg, req, w, out))
  }

  function ParseAction(verb: string, path: string): (string, string, string) {
    if verb == "POST" && path == "/graphql" then ("graphql_request", "graphql", "query")
    else if path == "/api/v1/health" then ("health_check", "system", "health")
    else if path == "/api/v1/ready" then ("readiness_check", "system", "readiness")
    else if path == "/api/v1/metrics" then ("metrics", "system", "metrics")
    else if path == "/api/v1/info" then ("info", "system", "info")
    else if path == "/" then ("playground", "graphql", "playground")
    else ("unknown", "unknown", path)
  }

  /** The error text of an audit entry, which is never masked. */
  function AuditedError(out: Outcome): string {
    if out.Failed? then ErrorText(out.error) else ""
  }

  /**
   Code after the `Next()` call runs only when that call returns. `requestId` is the id
   read before it.
   */
  function Audit(cfg: Config, req: Request, requestId: string, w: World, out: Outcome): (World, Outcome) {
    if req.path in cfg.skipPaths || out.Panicked? then (w, out) else
      var (action, resourceType, resourceName) := ParseAction(req.verb, req.path);
      var entry := AuditEntry(requestId, req.path, if out.Failed? then 500 else 200, AuditedError(out),
                              action, resourceType, resourceName);
      (w.(audits := w.audits + [entry]), out)
  }

  function Logging(cfg: Config, req: Request): Program<World> {
    Around(PassOn, (start: World, w, out) => Audit(cfg, req, start.requestId, w, out))
  }

  function Verdict(cfg: Config, req: Request, w: World): RateLimiter.Result {
    RateLimiter.AllowResult(w.limiter, cfg.limits, req.ip, req.now, req.until)
  }

  predicate Denied(cfg: Config, req: Request, w: World) {
    req.path !in cfg.skipPaths && !Verdict(cfg, req, w).allowed
  }

  function Counted(cfg: Config, req: Request, w: World): World {
    if req.path in cfg.skipPaths then w
    else w.(limiter := RateLimiter.AllowState(w.limiter, cfg.limits, req.ip, req.now))
  }

  function Limit(cfg: Config, req: Request, w: World): (World, Action) {
    if !Denied(cfg, req, w) then (Counted(cfg, req, w), CallNext) else
      var r := Verdict(cfg, req, w);
      var (w', out) := WriteJson(cfg, Counted(cfg, req, w), LimitBody(r.resetTime, r.limit));
      (w', Stop(out))
  }

  function RateLimit(cfg: Config, req: Request): Program<World> {
    Around(w => Limit(cfg, req, w), Return)
  }

  function DefaultStack(cfg: Config, req: Request): seq<Middleware<World>> {
    [Plain(0, RequestID(req)), Plain(1, Recovery(cfg, req)), Plain(2, ErrorHandling(cfg, req)),
     Plain(3, Logging(cfg, req)), Plain(4, RateLimit(cfg, req))]
  }

  /** One request through the index-driven chain. */
  function Serve(cfg: Config, req: Request, w: World, handler: Handler<World>): Effect<World> {
    Observed(ExecuteChain(Base, DefaultStack(cfg, req), w, handler))
  }

  // ---------------------------------------------------------------------------
  // What the stack computes
  // ---------------------------------------------------------------------------

  lemma OnceFive<W>(a: Middleware<W>, b: Middleware<W>, c: Middleware<W>, d: Middleware<W>, e: Middleware<W>)
    requires Once(a) && Once(b) && Once(c) && Once(d) && Once(e)
    ensures OnceEach([a, b, c, d, e])
  {
    assert [a, b, c, d, e][1..] == [b, c, d, e] && [b, c, d, e][1..] == [c, d, e] && [c, d, e][1..] == [d, e];
    assert [d, e][1..] == [e] && [e][1..] == [];
    assert OnceEach([e]) && OnceEach([d, e]) && OnceEach([c, d, e]);
  }

  lemma AroundIsOnce(id: nat, before: World -> (World, Action), after: (World, World, Outcome) -> (World, Outcome))
    ensures Once(Plain(id, Around(before, after)))
  {
    assert NextCalls(Around(before, after).rest) == 0;
  }

  lemma StackIsOnce(cfg: Config, req: Request)
    ensures OnceEach(DefaultStack(cfg, req))
  {
    AroundIsOnce(0, w => (Identified(req, w), CallNext), Return);
    AroundIsOnce(1, PassOn, (_, w, out) => Recover(cfg, req, w, out));
    AroundIsOnce(2, PassOn, (_, w, out) => HandleResult(cfg, req, w, out));
    AroundIsOnce(3, PassOn, (start: World, w, out) => Audit(cfg, req, start.requestId, w, out));
    AroundIsOnce(4, w => Limit(cfg, req, w), Return);
    OnceFive(Plain(0, RequestID(req)), Plain(1, Recovery(cfg, req)), Plain(2, ErrorHandling(cfg, req)),
             Plain(3, Logging(cfg, req)), Plain(4, RateLimit(cfg, req)));
  }

  lemma AroundMeans(id: nat, before: World -> (World, Action), after: (World, World, Outcome) -> (World, Outcome),
                    next: Handler<World>, w: World)
    ensures var (w', action) := before(w);
            Start(id, Around(before, after), next, w) ==
              if action.Stop? then Effect(w', action.out, [id]) else
                var n := next(w');
                var (v, out) := after(w, n.world, n.out);
                Effect(v, out, [id] + n.started)
  {
    var p := Around(before, after);
    var (w', action) := p.head(w, []);
    if action.Stop? {
      assert [id] + [] == [id];
    } else {
      var n := next(w');
      var past := [Seen(w, n.out)];
      assert [] + past == past;
      var (v, out) := after(w, n.world, n.out);
      assert Last(n.world, past) == Seen(w, n.out);
      assert Denote(p.rest, past, next, n.world) == Effect(v, out, []);
      assert Denote(p, [], next, w) == Effect(v, out, n.started + []);
      assert n.started + [] == n.started;
    }
  }

  /** The handler inside the logging middleware: rate limiting, then the given handler. */
  function Limited(cfg: Config, req: Request, handler: Handler<World>, w: World): Effect<World> {
    if Denied(cfg, req, w) then
      var (w', action) := Limit(cfg, req, w);
      Effect(w', if action.Stop? then action.out else Ok, [4])
    else
      var n := handler(Counted(cfg, req, w));
      Effect(n.world, n.out, [4] + n.started)
  }

  lemma ComposeFive<W>(a: Middleware<W>, b: Middleware<W>, c: Middleware<W>, d: Middleware<W>, e: Middleware<W>,
                       base: Handler<W>)
    ensures Compose([a, b, c, d, e], base) == Wrap(a, Wrap(b, Wrap(c, Wrap(d, Wrap(e, base)))))
  {
    assert [a, b, c, d, e][1..] == [b, c, d, e] && [b, c, d, e][1..] == [c, d, e] && [c, d, e][1..] == [d, e];
    assert [d, e][1..] == [e] && [e][1..] == [];
    assert Compose([e], base) == Wrap(e, Compose([], base));
    assert Compose([d, e], base) == Wrap(d, Wrap(e, base));
    assert Compose([c, d, e], base) == Wrap(c, Wrap(d, Wrap(e, base)));
  }

  /** The stack as a straight line of code around the handler. */
  lemma StackMeans(cfg: Config, req: Request, w: World, handler: Handler<World>)
    ensures var inner := Limited(cfg, req, handler, Identified(req, w));
            var (w1, out1) := Audit(cfg, req, Identified(req, w).requestId, inner.world, inner.out);
            var (w2, out2) := HandleResult(cfg, req, w1, out1);
            var (w3, out3) := Recover(cfg, req, w2, out2);
            Serve(cfg, req, w, handler) == Effect(w3, out3, [0, 1, 2, 3] + inner.started)
  {
    StackIsOnce(cfg, req);
    ExecuteChainIsComposition(DefaultStack(cfg, req), w, handler);
    ComposeFive(Plain(0, RequestID(req)), Plain(1, Recovery(cfg, req)), Plain(2, ErrorHandling(cfg, req)),
                Plain(3, Logging(cfg, req)), Plain(4, RateLimit(cfg, req)), handler);
    WrappedMeans(cfg, req, w, handler);
  }

  lemma WrappedMeans(cfg: Config, req: Request, w: World, handler: Handler<World>)
    ensures var inner := Limited(cfg, req, handler, Identified(req, w));
            var (w1, out1) := Audit(cfg, req, Identified(req, w).requestId, inner.world, inner.out);
            var (w2, out2) := HandleResult(cfg, req, w1, out1);
            var (w3, out3) := Recover(cfg, req, w2, out2);
            Wrap(Plain(0, RequestID(req)), Wrap(Plain(1, Recovery(cfg, req)), Wrap(Plain(2, ErrorHandling(cfg, req)),
              Wrap(Plain(3, Logging(cfg, req)), Wrap(Plain(4, RateLimit(cfg, req)), handler)))))(w)
              == Effect(w3, out3, [0, 1, 2, 3] + inner.started)
  {
    var h1 := Wrap(Plain(1, Recovery(cfg, req)), Wrap(Plain(2, ErrorHandling(cfg, req)),
                Wrap(Plain(3, Logging(cfg, req)), Wrap(Plain(4, RateLimit(cfg, req)), handler))));
    RecoveredMeans(cfg, req, Identified(req, w), handler);
    AroundMeans(0, x => (Identified(req, x), CallNext), Return, h1, w);
  }

  lemma RecoveredMeans(cfg: Config, req: Request, w: World, handler: Handler<World>)
    ensures var inner := Limited(cfg, req, handler, w);
            var (w1, out1) := Audit(cfg, req, w.requestId, inner.world, inner.out);
            var (w2, out2) := HandleResult(cfg, req, w1, out1);
            var (v, out) := Recover(cfg, req, w2, out2);
            Wrap(Plain(1, Recovery(cfg, req)), Wrap(Plain(2, ErrorHandling(cfg, req)), Wrap(Plain(3, Logging(cfg, req)),
              Wrap(Plain(4, RateLimit(cfg, req)), handler))))(w)
              == Effect(v, out, [1, 2, 3] + inner.started)
  {
    var h2 := Wrap(Plain(2, ErrorHandling(cfg, req)), Wrap(Plain(3, Logging(cfg, req)),
                Wrap(Plain(4, RateLimit(cfg, req)), handler)));
    HandledMeans(cfg, req, w, handler);
    AroundMeans(1, PassOn, (_, x, out) => Recover(cfg, req, x, out), h2, w);
  }

  lemma HandledMeans(cfg: Config, req: Request, w: World, handler: Handler<World>)
    ensures var inner := Limited(cfg, req, handler, w);
            var (w1, out1) := Audit(cfg, req, w.requestId, inner.world, inner.out);
            var (v, out) := HandleResult(cfg, req, w1, out1);
            Wrap(Plain(2, ErrorHandling(cfg, req)), Wrap(Plain(3, Logging(cfg, req)),
              Wrap(Plain(4, RateLimit(cfg, req)), handler)))(w)
              == Effect(v, out, [2, 3] + inner.started)
  {
    var h3 := Wrap(Plain(3, Logging(cfg, req)), Wrap(Plain(4, RateLimit(cfg, req)), handler));
    LoggingMeans(cfg, req, w, handler);
    AroundMeans(2, PassOn, (_, x, out) => HandleResult(cfg, req, x, out), h3, w);
  }

  lemma LoggingMeans(cfg: Config, req: Request, w: World, handler: Handler<World>)
    ensures var inner := Limited(cfg, req, handler, w);
            var (v, out) := Audit(cfg, req, w.requestId, inner.world, inner.out);
            Wrap(Plain(3, Logging(cfg, req)), Wrap(Plain(4, RateLimit(cfg, req)), handler))(w)
              == Effect(v, out, [3] + inner.started)
  {
    var h4 := Wrap(Plain(4, RateLimit(cfg, req)), handler);
    assert h4(w) == Limited(cfg, req, handler, w) by {
      AroundMeans(4, x => Limit(cfg, req, x), Return, handler, w);
      LimitEnds(cfg, req, w);
    }
    AroundMeans(3, PassOn, (start: World, x, out) => Audit(cfg, req, start.requestId, x, out), h4, w);
  }

  lemma LimitEnds(cfg: Config, req: Request, w: World)
    ensures Denied(cfg, req, w) <==> Limit(cfg, req, w).1.Stop?
    ensures !Denied(cfg, req, w) ==> Limit(cfg, req, w).0 == Counted(cfg, req, w)
  {
  }

  // ---------------------------------------------------------------------------
  // Containment
  // ---------------------------------------------------------------------------

  /** The error bodies a handler outcome leads to. */
  function BodiesFor(cfg: Config, req: Request, w: World, out: Outcome): seq<Body> {
    match out
    case Ok => []
    case Panicked(v) => [Render(cfg, req, w, RecoveredError(v))]
    case Failed(e) =>
      var app := ConvertToAppError(e);
      [Render(cfg, req, w, if LoggerPanics(app) then RecoveredError(NIL_ERROR_CALL) else app)]
  }

  /** The handler run of a request that is not denied. */
  function HandlerRun(cfg: Config, req: Request, w: World, handler: Handler<World>): Effect<World> {
    handler(Counted(cfg, req, Identified(req, w)))
  }

  function Turned(cfg: Config, req: Request, w: World): Body {
    var r := Verdict(cfg, req, Identified(req, w));
    LimitBody(r.resetTime, r.limit)
  }

  /**
   When every response write succeeds, any handler outcome ends in a nil return with
   exactly one error body after an error, a panic or a denial and none after a success,
   even when logging the error panics inside the error handler.
   */
  lemma DefaultStackContains(cfg: Config, req: Request, w: World, handler: Handler<World>)
    requires forall i :: cfg.writeOk(i)
    ensures var e := Serve(cfg, req, w, handler);
            && e.out.Ok?
            && e.world.bodies ==
                 if Denied(cfg, req, Identified(req, w)) then w.bodies + [Turned(cfg, req, w)]
                 else
                   var h := HandlerRun(cfg, req, w, handler);
                   h.world.bodies + BodiesFor(cfg, req, h.world, h.out)
  {
    StackMeans(cfg, req, w, handler);
  }

  /** No panic leaves the stack, whatever the handler does and whichever writes fail. */
  lemma NoPanicEscapes(cfg: Config, req: Request, w: World, handler: Handler<World>)
    ensures !Serve(cfg, req, w, handler).out.Panicked?
  {
    StackMeans(cfg, req, w, handler);
  }

  /**
   An error leaves the stack exactly when the write of its body failed: for a denied
   request the write of the denial and of the error that replaced it, for a handler's
   error the write of its body. After a panic, a failed write goes unreported.
   */
  lemma ErrorEscapesIff(cfg: Config, req: Request, w: World, handler: Handler<World>)
    ensures var h := HandlerRun(cfg, req, w, handler);
            Serve(cfg, req, w, handler).out.Failed? <==>
              if Denied(cfg, req, Identified(req, w)) then !cfg.writeOk(w.writes) && !cfg.writeOk(w.writes + 1)
              else h.out.Failed? && !LoggerPanics(ConvertToAppError(h.out.error)) && !cfg.writeOk(h.world.writes)
  {
    StackMeans(cfg, req, w, handler);
  }

  /**
   One audit entry is written for a request that is not skipped, unless its handler
   panics; it carries the id the request came in with, even if the handler sets another,
   and says 500 exactly when an error reached the logging middleware, so a denial that
   could be written is recorded as 200.
   */
  lemma OneAuditPerReturn(cfg: Config, req: Request, w: World, handler: Handler<World>)
    ensures var e := Serve(cfg, req, w, handler);
            var inner := Limited(cfg, req, handler, Identified(req, w));
            && |e.world.audits| == |inner.world.audits|
                                   + (if req.path in cfg.skipPaths || inner.out.Panicked? then 0 else 1)
            && inner.world.audits <= e.world.audits
            && (|e.world.audits| > |inner.world.audits| ==>
                  var entry := e.world.audits[|inner.world.audits|];
                  && entry.path == req.path && entry.requestId == Identified(req, w).requestId
                  && entry.error == AuditedError(inner.out)
                  && (entry.status == 500 <==> inner.out.Failed?) && (entry.status == 200 <==> inner.out.Ok?))
    ensures Denied(cfg, req, Identified(req, w)) ==>
              var inner := Limited(cfg, req, handler, Identified(req, w));
              inner.out.Ok? <==> cfg.writeOk(w.writes)
  {
    StackMeans(cfg, req, w, handler);
  }

  /** Two outcomes that differ only in what masking hides: any panics, or server errors of one type and code. */
  predicate MaskedAlike(a: Outcome, b: Outcome) {
    || a == b
    || (a.Panicked? && b.Panicked?)
    || (a.Failed? && b.Failed? &&
        var x, y := ConvertToAppError(a.error), ConvertToAppError(b.error);
        && x.kind == y.kind && x.code == y.code && x.status >= 500 && y.status >= 500
        && LoggerPanics(x) == LoggerPanics(y))
  }

  /** Everything but the error texts in the audit. */
  function Redacted(w: World): World {
    w.(audits := seq(|w.audits|, i requires 0 <= i < |w.audits| => w.audits[i].(error := "")))
  }

  lemma AuditsAlike(cfg: Config, req: Request, requestId: string, w: World, out: Outcome, out': Outcome)
    requires MaskedAlike(out, out')
    ensures var v, v' := Audit(cfg, req, requestId, w, out).0, Audit(cfg, req, requestId, w, out').0;
            && v' == v.(audits := v'.audits) && |v.audits| == |v'.audits|
            && (v'.audits == v.audits <==> req.path in cfg.skipPaths || AuditedError(out) == AuditedError(out'))
            && forall i :: 0 <= i < |v.audits| ==> v.audits[i].(error := "") == v'.audits[i].(error := "")
  {
    var v, v' := Audit(cfg, req, requestId, w, out).0, Audit(cfg, req, requestId, w, out').0;
    if |v.audits| > |w.audits| {
      assert v.audits[|w.audits|].error == AuditedError(out) && v'.audits[|w.audits|].error == AuditedError(out');
    }
  }

  /** The error handling and recovery outside the logging middleware. */
  function Outside(cfg: Config, req: Request, w: World, out: Outcome): (World, Outcome) {
    var (w', out') := HandleResult(cfg, req, w, out);
    Recover(cfg, req, w', out')
  }

  lemma MaskedOutside(cfg: Config, req: Request, w: World, w': World, out: Outcome, out': Outcome)
    requires cfg.maskInternal && MaskedAlike(out, out') && w' == w.(audits := w'.audits)
    ensures var (v, o), (v', o') := Outside(cfg, req, w, out), Outside(cfg, req, w', out');
            o == o' && v.audits == w.audits && v' == v.(audits := w'.audits)
  {
  }

  /**
   With masking on, the messages, details and causes of server errors, and the values of
   panics, do not reach the client: handlers that differ only in these lead to the same
   result, bodies, writes and limiter. They do reach the audit, which keeps the error's
   own text: nothing differs at all if and only if the request is denied or skipped, or
   those texts are the same.
   */
  lemma MaskingHidesDetails(cfg: Config, req: Request, w: World, handler: Handler<World>, handler': Handler<World>)
    requires cfg.maskInternal
    requires var h, h' := HandlerRun(cfg, req, w, handler), HandlerRun(cfg, req, w, handler');
             h.world == h'.world && h.started == h'.started && MaskedAlike(h.out, h'.out)
    ensures var e, e' := Serve(cfg, req, w, handler), Serve(cfg, req, w, handler');
            && e.out == e'.out && e.started == e'.started && Redacted(e.world) == Redacted(e'.world)
            && (e == e' <==>
                  var h, h' := HandlerRun(cfg, req, w, handler), HandlerRun(cfg, req, w, handler');
                  || Denied(cfg, req, Identified(req, w)) || req.path in cfg.skipPaths
                  || AuditedError(h.out) == AuditedError(h'.out))
  {
    StackMeans(cfg, req, w, handler);
    StackMeans(cfg, req, w, handler');
    var start, id := Identified(req, w), Identified(req, w).requestId;
    var inner, inner' := Limited(cfg, req, handler, start), Limited(cfg, req, handler', start);
    var v, v' := Audit(cfg, req, id, inner.world, inner.out).0, Audit(cfg, req, id, inner'.world, inner'.out).0;
    AuditsAlike(cfg, req, id, inner.world, inner.out, inner'.out);
    MaskedOutside(cfg, req, v, v', inner.out, inner'.out);
  }

  /**
   Middlewares added after the stack, in the same list or as a chain of their own, are
   part of the handler it contains, however often they call `Next()`: no panic leaves,
   and no error either when every response write succeeds.
   */
  lemma StackAroundMore(cfg: Config, req: Request, w: World, more: seq<Middleware<World>>, handler: Handler<World>)
    ensures var e := Observed(ExecuteChain(Base, DefaultStack(cfg, req) + more, w, handler));
            && e == Serve(cfg, req, w, ChainOn(Base, more, handler))
            && e == Observed(ExecuteChain(Base, [Nested(DefaultStack(cfg, req)), Nested(more)], w, handler))
            && !e.out.Panicked?
            && ((forall i :: cfg.writeOk(i)) ==> e.out.Ok?)
  {
    var ms, tail := DefaultStack(cfg, req), ChainOn(Base, more, handler);
    StackIsOnce(cfg, req);
    OncePrefixComposes(Base, ms, more, w, handler);
    ExecuteChainIsComposition(ms, w, tail);
    NestedPairComposes(ms, more, w, handler);
    NoPanicEscapes(cfg, req, w, tail);
    if forall i :: cfg.writeOk(i) {
      DefaultStackContains(cfg, req, w, tail);
    }
  }

  // ---------------------------------------------------------------------------
  // What the rate limiter lets through to the handler
  // ---------------------------------------------------------------------------

  /** The handler leaves the limiter alone, and marks its runs with `mark`. */
  ghost predicate Marked(handler: Handler<World>, mark: nat) {
    mark > 4 && forall w :: handler(w).started == [mark] && handler(w).world.limiter == w.limiter
  }

  /** What happens to the limiter over time: requests, and runs of its clean-up goroutine. */
  datatype Event = Arrives(req: Request) | CleansUp(now: int)

  function OpOf(cfg: Config, event: Event): seq<RateLimiter.Op> {
    match event
    case CleansUp(now) => [RateLimiter.Cleanup(now)]
    case Arrives(req) => if req.path in cfg.skipPaths then [] else [RateLimiter.Allow(req.ip, req.now, req.until)]
  }

  function OpsOf(cfg: Config, events: seq<Event>): seq<RateLimiter.Op> {
    if events == [] then [] else OpOf(cfg, events[0]) + OpsOf(cfg, events[1..])
  }

  function Happen(cfg: Config, event: Event, w: World, handler: Handler<World>): World {
    match event
    case CleansUp(now) => w.(limiter := RateLimiter.Apply(w.limiter, cfg.limits, RateLimiter.Cleanup(now)))
    case Arrives(req) => Serve(cfg, req, w, handler).world
  }

  /** A request from `ip`, not skipped and read in `[from, to]`, that reaches the handler. */
  predicate Passes(cfg: Config, event: Event, w: World, handler: Handler<World>, mark: nat, ip: string,
                   from: int, to: int) {
    event.Arrives? && var req := event.req;
    mark in Serve(cfg, req, w, handler).started && req.path !in cfg.skipPaths && req.ip == ip && from <= req.now <= to
  }

  /** How many of the events are such requests. */
  function PassedIn(cfg: Config, events: seq<Event>, w: World, handler: Handler<World>, mark: nat, ip: string,
                    from: int, to: int): nat
    decreases |events|
  {
    if events == [] then 0 else
      (if Passes(cfg, events[0], w, handler, mark, ip, from, to) then 1 else 0)
      + PassedIn(cfg, events[1..], Happen(cfg, events[0], w, handler), handler, mark, ip, from, to)
  }

  lemma LimitedCounts(cfg: Config, req: Request, w: World, handler: Handler<World>, mark: nat)
    requires Marked(handler, mark)
    ensures var inner := Limited(cfg, req, handler, w);
            && inner.started == (if Denied(cfg, req, w) then [4] else [4, mark])
            && inner.world.limiter == Counted(cfg, req, w).limiter
  {
  }

  lemma LimiterKept(cfg: Config, req: Request, requestId: string, w: World, out: Outcome)
    ensures var (v, o) := Audit(cfg, req, requestId, w, out);
            Outside(cfg, req, v, o).0.limiter == w.limiter
  {
  }

  /** The handler runs exactly when the request is skipped or allowed; the limiter counts one call. */
  lemma HandlerRunsIffAllowed(cfg: Config, req: Request, w: World, handler: Handler<World>, mark: nat)
    requires Marked(handler, mark)
    ensures var e := Serve(cfg, req, w, handler);
            && (mark in e.started <==> !Denied(cfg, req, Identified(req, w)))
            && e.world.limiter == Counted(cfg, req, w).limiter
  {
    StackMeans(cfg, req, w, handler);
    var inner := Limited(cfg, req, handler, Identified(req, w));
    LimitedCounts(cfg, req, Identified(req, w), handler, mark);
    LimiterKept(cfg, req, Identified(req, w).requestId, inner.world, inner.out);
  }

  lemma {:induction false} PassedAreAllowed(cfg: Config, events: seq<Event>, w: World, handler: Handler<World>,
                                            mark: nat, ip: string, from: int, to: int)
    requires Marked(handler, mark)
    ensures PassedIn(cfg, events, w, handler, mark, ip, from, to)
         == RateLimiter.AllowedIn(w.limiter, cfg.limits, OpsOf(cfg, events), ip, from, to)
    decreases |events|
  {
    if events != [] {
      PassedAreAllowed(cfg, events[1..], Happen(cfg, events[0], w, handler), handler, mark, ip, from, to);
      var ops, op := OpsOf(cfg, events), OpOf(cfg, events[0]);
      if events[0].Arrives? {
        HandlerRunsIffAllowed(cfg, events[0].req, w, handler, mark);
      }
      var rest := OpsOf(cfg, events[1..]);
      assert if op == [] then ops == rest else ops[0] == op[0] && ops[1..] == rest;
    }
  }

  lemma {:induction false} OpsNeverReset(cfg: Config, events: seq<Event>, ip: string)
    ensures RateLimiter.NoReset(OpsOf(cfg, events), ip)
    decreases |events|
  {
    if events != [] {
      OpsNeverReset(cfg, events[1..], ip);
      var ops := OpsOf(cfg, events);
      assert ops == OpsOf(cfg, events[1..]) || (!ops[0].Reset? && ops[1..] == OpsOf(cfg, events[1..]));
    }
  }

  /**
   Requests served through the whole stack, with clean-ups anywhere between them and
   clock readings that do not go back: in any closed interval as long as the window, at
   most `2 * limit - 1` requests from one address that are not skipped reach the handler.
   */
  lemma HandlerLoadIsBounded(cfg: Config, events: seq<Event>, w: World, handler: Handler<World>, mark: nat, ip: string,
                             from: int, start: int)
    requires Marked(handler, mark) && RateLimiter.Sound(w.limiter)
    requires RateLimiter.Monotone(OpsOf(cfg, events), start)
    ensures PassedIn(cfg, events, w, handler, mark, ip, from, from + cfg.limits.window)
         <= RateLimiter.Max(0, 2 * cfg.limits.limit - 1)
  {
    hide *;
    var ops, to := OpsOf(cfg, events), from + cfg.limits.window;
    PassedAreAllowed(cfg, events, w, handler, mark, ip, from, to);
    var passed := PassedIn(cfg, events, w, handler, mark, ip, from, to);
    assert passed <= RateLimiter.Max(0, 2 * cfg.limits.limit - 1) by {
      OpsNeverReset(cfg, events, ip);
      RateLimiter.AtMostTwiceLimitPerInterval(w.limiter, cfg.limits, ops, ip, from, start);
    }
  }
}
