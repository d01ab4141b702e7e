/** What the client gets from the default stack, in terms of the request and the handler's outcome alone. */
module ErrorBodies {
  import opened GoErrors
  import opened Chain
  import opened Stack
  import RateLimiter

  /** The request ID in force: the header's, or a fresh one. */
  function IdInForce(req: Request): string {
    if req.idHeader != "" then req.idHeader else req.freshId
  }

  predicate TurnedAway(cfg: Config, req: Request, w: World) {
    req.path !in cfg.skipPaths && !RateLimiter.AllowResult(w.limiter, cfg.limits, req.ip, req.now, req.until).allowed
  }

  /** What the handler of a request that is not turned away finds: the id set, and one call counted. */
  function HandlerSees(cfg: Config, req: Request, w: World): World {
    w.(requestId := IdInForce(req),
       limiter := if req.path in cfg.skipPaths then w.limiter
                  else RateLimiter.AllowState(w.limiter, cfg.limits, req.ip, req.now))
  }

  lemma HandlerRunSees(cfg: Config, req: Request, w: World, handler: Handler<World>)
    ensures Denied(cfg, req, Identified(req, w)) <==> TurnedAway(cfg, req, w)
    ensures HandlerRun(cfg, req, w, handler) == handler(HandlerSees(cfg, req, w))
  {
    assert Counted(cfg, req, Identified(req, w)) == HandlerSees(cfg, req, w);
  }

  /** `app` is the application error that `e` is, or wraps at some depth. */
  predicate Carries(e: GoError, app: AppError) {
    match e
    case App(a) => a == app
    case Other(_, Some(inner)) => Carries(inner, app)
    case Other(_, None) => false
  }

  /** `e` is a plain error all the way down. */
  predicate CarriesNone(e: GoError) {
    e.Other? && (e.wraps.Some? ==> CarriesNone(e.wraps.value))
  }

  lemma {:induction false} CarriedIsFound(e: GoError, app: AppError)
    ensures Carries(e, app) ==> FindApp(e) == Some(app)
    ensures CarriesNone(e) ==> FindApp(e) == None
    decreases e
  {
    if e.Other? && e.wraps.Some? {
      CarriedIsFound(e.wraps.value, app);
    }
  }

  /**
   An application error, wrapped or not, reaches the client with its own message,
   details, type and code, unless it is a server error and masking is on: then with two
   fixed texts in place of message and details.
   */
  lemma ErrorReachesClient(cfg: Config, req: Request, w: World, handler: Handler<World>, app: AppError)
    requires !TurnedAway(cfg, req, w)
    requires var h := handler(HandlerSees(cfg, req, w));
             h.out.Failed? && Carries(h.out.error, app) && cfg.writeOk(h.world.writes)
    requires app.status < 500 || app.cause.Some?
    ensures var h, e := handler(HandlerSees(cfg, req, w)), Serve(cfg, req, w, handler);
            && e.out == Ok && |e.world.bodies| == |h.world.bodies| + 1 && h.world.bodies <= e.world.bodies
            && var body := e.world.bodies[|h.world.bodies|];
            && body.ErrorBody? && body.kind == app.kind && body.code == app.code
            && body.path == req.path && body.requestId == h.world.requestId
            && (if cfg.maskInternal && app.status >= 500 then
                  && body.error == "Internal server error" && body.message == "An unexpected error occurred"
                  && body.details == ""
                else
                  body.error == app.message && body.message == app.message && body.details == app.details)
  {
    var h := handler(HandlerSees(cfg, req, w));
    HandlerRunSees(cfg, req, w, handler);
    CarriedIsFound(h.out.error, app);
    StackMeans(cfg, req, w, handler);
  }

  /** Any other error is an internal one, whose text is a detail. */
  lemma PlainErrorReachesClient(cfg: Config, req: Request, w: World, handler: Handler<World>)
    requires !TurnedAway(cfg, req, w)
    requires var h := handler(HandlerSees(cfg, req, w));
             h.out.Failed? && CarriesNone(h.out.error) && cfg.writeOk(h.world.writes)
    ensures var h, e := handler(HandlerSees(cfg, req, w)), Serve(cfg, req, w, handler);
            && e.out == Ok
            && e.world.bodies == h.world.bodies + [
                 ErrorBody("Internal server error", "INTERNAL_ERROR", "INTERNAL_ERROR",
                           if cfg.maskInternal then "An unexpected error occurred" else "Internal server error",
                           if cfg.maskInternal then "" else h.out.error.text, req.path, h.world.requestId)]
  {
    var h := handler(HandlerSees(cfg, req, w));
    HandlerRunSees(cfg, req, w, handler);
    CarriedIsFound(h.out.error, AppError("", "", "", "", 0, None));
    StackMeans(cfg, req, w, handler);
  }

  /** The body of a recovered panic whose value reads `text`. */
  function PanicBody(cfg: Config, req: Request, requestId: string, text: string): Body {
    ErrorBody(if cfg.maskInternal then "Internal server error" else "An unexpected error occurred",
              "PANIC_RECOVERED", "PANIC_RECOVERED", "An unexpected error occurred",
              if cfg.maskInternal then "" else text, req.path, requestId)
  }

  /**
   A panic is reported as such, with the panic value's text for a detail; so is a server
   error without a cause, because logging it dereferences the missing cause.
   */
  lemma PanicReachesClient(cfg: Config, req: Request, w: World, handler: Handler<World>)
    requires !TurnedAway(cfg, req, w) && cfg.writeOk(handler(HandlerSees(cfg, req, w)).world.writes)
    ensures var h, e := handler(HandlerSees(cfg, req, w)), Serve(cfg, req, w, handler);
            && (h.out.Panicked? ==>
                  && e.out == Ok
                  && e.world.bodies == h.world.bodies + [
                       PanicBody(cfg, req, h.world.requestId,
                                 match h.out.value
                                 case PanicText(text) => text
                                 case PanicError(error) => ErrorText(error)
                                 case PanicOther(shown) => "panic: " + shown)])
            && (forall app :: h.out.Failed? && Carries(h.out.error, app) && app.status >= 500 && app.cause.None? ==>
                  && e.out == Ok
                  && e.world.bodies == h.world.bodies + [
                       PanicBody(cfg, req, h.world.requestId,
                                 "runtime error: invalid memory address or nil pointer dereference")])
  {
    var h := handler(HandlerSees(cfg, req, w));
    HandlerRunSees(cfg, req, w, handler);
    StackMeans(cfg, req, w, handler);
    if h.out.Failed? {
      forall app | Carries(h.out.error, app) ensures FindApp(h.out.error) == Some(app) {
        CarriedIsFound(h.out.error, app);
      }
    }
  }

  /** A request that is turned away gets the limit and the time to come back, and its handler does not run. */
  lemma DenialReachesClient(cfg: Config, req: Request, w: World, handler: Handler<World>)
    requires TurnedAway(cfg, req, w) && cfg.writeOk(w.writes)
    ensures var e := Serve(cfg, req, w, handler);
            && e.out == Ok && e.started == [0, 1, 2, 3, 4]
            && e.world.bodies == w.bodies + [
                 LimitBody(RateLimiter.AllowResult(w.limiter, cfg.limits, req.ip, req.now, req.until).resetTime,
                           cfg.limits.limit)]
  {
    HandlerRunSees(cfg, req, w, handler);
    StackMeans(cfg, req, w, handler);
  }

  /**
   Whatever writes fail, only a write that succeeded leaves a body, and there is at most
   one: a success leaves none; an error or panic one if its write succeeded; a denial one
   if its own write, or that of the error it turns into, did.
   */
  lemma OneBodyPerWrite(cfg: Config, req: Request, w: World, handler: Handler<World>)
    ensures var e := Serve(cfg, req, w, handler);
            if TurnedAway(cfg, req, w) then
              |e.world.bodies| == |w.bodies| + (if cfg.writeOk(w.writes) || cfg.writeOk(w.writes + 1) then 1 else 0)
            else
              var h := handler(HandlerSees(cfg, req, w));
              |e.world.bodies| == |h.world.bodies| + (if !h.out.Ok? && cfg.writeOk(h.world.writes) then 1 else 0)
  {
    HandlerRunSees(cfg, req, w, handler);
    StackMeans(cfg, req, w, handler);
  }

  /** The text of an application error begins with its code and message, and ends with its cause's text in brackets. */
  lemma ErrorTextShows(app: AppError)
    ensures app.code + ": " + app.message <= ErrorText(App(app))
    ensures app.cause.None? ==> ErrorText(App(app)) == app.code + ": " + app.message
    ensures app.cause.Some? ==>
              ErrorText(App(app)) == app.code + ": " + app.message + " (caused by: " + ErrorText(app.cause.value) + ")"
  {
  }

  /** The audit names the endpoint: a GraphQL post, one of the REST endpoints, the playground, or nothing known. */
  lemma AuditNamesEndpoint(cfg: Config, req: Request, w: World, handler: Handler<World>)
    requires req.path !in cfg.skipPaths && !TurnedAway(cfg, req, w) && !handler(HandlerSees(cfg, req, w)).out.Panicked?
    ensures var h, e := handler(HandlerSees(cfg, req, w)), Serve(cfg, req, w, handler);
            && |e.world.audits| == |h.world.audits| + 1
            && var entry := e.world.audits[|h.world.audits|];
            var post := req.verb == "POST" && req.path == "/graphql";
            var names := (entry.action, entry.resourceType, entry.resourceName);
            && (post ==> names == ("graphql_request", "graphql", "query"))
            && (req.path == "/api/v1/health" ==> names == ("health_check", "system", "health"))
            && (req.path == "/api/v1/ready" ==> names == ("readiness_check", "system", "readiness"))
            && (req.path == "/api/v1/metrics" ==> names == ("metrics", "system", "metrics"))
            && (req.path == "/api/v1/info" ==> names == ("info", "system", "info"))
            && (req.path == "/" ==> names == ("playground", "graphql", "playground"))
            && (!post && req.path !in {"/api/v1/health", "/api/v1/ready", "/api/v1/metrics", "/api/v1/info", "/"} ==>
                  names == ("unknown", "unknown", req.path))
  {
    HandlerRunSees(cfg, req, w, handler);
    StackMeans(cfg, req, w, handler);
  }
}
