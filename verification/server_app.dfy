/**
  The Express application shared by the long-running server and the serverless entry point: the
  CORS origin decision, the error-handling middleware, the catch-all 404, and the serverless
  entry point's once-only database initialisation. The two entry points carry the same origin
  list and the same middleware, so each is modelled once.
 */
module ServerApp {
  import opened Base
  import opened Text
  import opened Envelope
  import Database
  import ApiContact

  // ---------------------------------------------------------------------------
  // CORS

  /** The fixed part of the application's origin list. */
  const FixedOrigins := [
    "http://localhost:5173",
    "http://localhost:3000",
    "http://localhost:5000",
    "https://portfolio-gamma-azure-zm0bqy9dij.vercel.app",
    "https://portfolio-backend-nu-three.vercel.app"]

  /** Deployments recognised by part of their host name. */
  predicate IsPreviewOrigin(origin: string) {
    Contains(origin, "vercel.app") || Contains(origin, "portfolio-gamma-azure") || Contains(origin, "portfolio-backend-nu")
  }

  datatype CorsDecision = Allow | Deny(message: string)

  /** The `origin` callback of the CORS options; an empty header counts as no header. */
  function CorsOrigin(origin: Option<string>, corsOrigin: Option<string>, frontendUrl: Option<string>): (d: CorsDecision)
    ensures d.Deny? ==> d.message == "Not allowed by CORS"
  {
    if origin.None? || origin.value == [] then Allow
    else if origin.value in ApiContact.Configured(corsOrigin) + ApiContact.Configured(frontendUrl) + FixedOrigins
      || IsPreviewOrigin(origin.value) then Allow
    else Deny("Not allowed by CORS")
  }

  /**
    Which origins pass: none given, one of the set environment origins, one of the fixed list,
    or a preview host. The environment settings only ever add origins.
   */
  lemma CorsAllowsExactly(origin: Option<string>, corsOrigin: Option<string>, frontendUrl: Option<string>)
    ensures CorsOrigin(origin, corsOrigin, frontendUrl).Allow? <==>
      || origin.None? || origin.value == []
      || (corsOrigin.Some? && origin.value == corsOrigin.value)
      || (frontendUrl.Some? && origin.value == frontendUrl.value)
      || origin.value in FixedOrigins
      || IsPreviewOrigin(origin.value)
    ensures CorsOrigin(origin, None, None).Allow? ==> CorsOrigin(origin, corsOrigin, frontendUrl).Allow?
  {
  }

  /** Both production entries of the fixed list would pass on their host name alone. */
  lemma ProductionEntriesArePreviews()
    ensures forall o :: o in FixedOrigins[3..] ==> IsPreviewOrigin(o)
  {
    var a := "https://portfolio-gamma-azure-zm0bqy9dij.vercel.app";
    var b := "https://portfolio-backend-nu-three.vercel.app";
    assert OccursAt(a, "vercel.app", |a| - 10);
    assert OccursAt(b, "vercel.app", |b| - 10);
  }

  /**
    The contact function's own origin echo and the application's CORS check disagree on one
    origin: the echo lists `http://localhost:3001`, which the application refuses.
   */
  lemma Localhost3001OnlyEchoed(origin: string)
    requires origin == "http://localhost:3001"
    ensures ApiContact.AllowOrigin(Some(origin), None, None) == origin
    ensures CorsOrigin(Some(origin), None, None).Deny?
  {
    assert LacksChar(origin, 'v');
    CharAbsent(origin, "vercel.app", 0);
    LongNameAbsent(origin, "portfolio-gamma-azure");
    LongNameAbsent(origin, "portfolio-backend-nu");
  }

  /** A name of at least twenty characters starting with `p` does not occur in `http://localhost:3001`. */
  lemma LongNameAbsent(origin: string, sub: string)
    requires origin == "http://localhost:3001" && |sub| >= 20 && sub[0] == 'p'
    ensures !Contains(origin, sub)
  {
    forall i | 0 <= i <= |origin| - |sub|
      ensures !OccursAt(origin, sub, i)
    {
      assert origin[i..i + |sub|][0] == origin[i];
    }
  }

  /** Apart from that one origin, every origin the contact function echoes, the application admits. */
  lemma EchoedOriginsAdmitted(origin: string, corsOrigin: Option<string>, frontendUrl: Option<string>)
    requires origin != "http://localhost:3001"
    requires ApiContact.AllowOrigin(Some(origin), corsOrigin, frontendUrl) == origin && origin != "*"
    ensures CorsOrigin(Some(origin), corsOrigin, frontendUrl).Allow?
  {
    CorsAllowsExactly(Some(origin), corsOrigin, frontendUrl);
    if Contains(origin, "vercel.app") {
      assert IsPreviewOrigin(origin);
    } else {
      assert origin in ApiContact.AllowedOrigins(corsOrigin, frontendUrl);
      EchoListMembers(origin, corsOrigin, frontendUrl);
      SigmaBackendIsPreview();
    }
  }

  /** The contact function's second deployed backend, absent from the application's own list. */
  const SigmaBackend := "https://portfolio-backend-sigma-olive.vercel.app"

  lemma SigmaBackendIsPreview()
    ensures Contains(SigmaBackend, "vercel.app")
  {
    var b := SigmaBackend;
    assert OccursAt(b, "vercel.app", |b| - 10);
  }

  /** Each entry of the contact function's list is a set environment origin, a fixed origin, `:3001`, or the other backend. */
  lemma EchoListMembers(origin: string, corsOrigin: Option<string>, frontendUrl: Option<string>)
    requires origin in ApiContact.AllowedOrigins(corsOrigin, frontendUrl)
    ensures || (corsOrigin.Some? && origin == corsOrigin.value)
            || (frontendUrl.Some? && origin == frontendUrl.value)
            || origin in FixedOrigins
            || origin == "http://localhost:3001"
            || origin == SigmaBackend
  {
    var configured := ApiContact.Configured(corsOrigin) + ApiContact.Configured(frontendUrl);
    if origin !in configured {
      assert origin in ApiContact.EchoFixed;
      var j :| 0 <= j < 5 && ApiContact.EchoFixed[j] == origin;
      if j == 0 || j == 1 {
        assert ApiContact.EchoFixed[j] == FixedOrigins[j];
      } else if j == 3 {
        assert ApiContact.EchoFixed[3] == FixedOrigins[3];
      }
    }
  }

  // ---------------------------------------------------------------------------
  // Error handling

  /**
    An error passed to the error middleware. `status` 0 and `code` "" stand for a missing or falsy
    property, as does an empty `message`. A truthy `code` that is not a string is passed on as it
    is; here a numeric code is represented by its numeral.
   */
  datatype AppError = AppError(name: string, message: string, status: nat, code: string)

  const SomethingWrong := "Something went wrong!"

  function ErrorMiddleware(err: AppError): (r: Response)
    ensures r.Failed?
    ensures err.name == "ValidationError" <==> r.code == "VALIDATION_ERROR" && r.details.DetailText?
    ensures err.name == "ValidationError" ==> r == Failed(400, "Validation failed", "VALIDATION_ERROR", DetailText(err.message))
    ensures err.name != "ValidationError" ==> r.details == NoDetails
  {
    if err.name == "ValidationError" then
      Failed(400, "Validation failed", "VALIDATION_ERROR", DetailText(err.message))
    else if err.name == "MongoError" || err.name == "MongooseError" then
      Failed(500, "Database error occurred", "DATABASE_ERROR", NoDetails)
    else
      Failed(if err.status == 0 then 500 else err.status,
             if err.message == [] then SomethingWrong else err.message,
             if err.code == [] then "INTERNAL_SERVER_ERROR" else err.code,
             NoDetails)
  }

  /** Any other error keeps its own status, message and code, and each missing one takes its default. */
  lemma DefaultErrorKeepsItsOwnParts(err: AppError)
    requires err.name != "ValidationError" && err.name != "MongoError" && err.name != "MongooseError"
    ensures var r := ErrorMiddleware(err);
      && (err.status != 0 ==> r.status == err.status) && (err.status == 0 ==> r.status == 500)
      && (err.message != [] ==> r.message == err.message) && (err.message == [] ==> r.message == SomethingWrong)
      && (err.code != [] ==> r.code == err.code) && (err.code == [] ==> r.code == "INTERNAL_SERVER_ERROR")
  {
  }

  /** A database error gets the same status and code from the middleware as from the contact function's catch block. */
  lemma DatabaseErrorsAgree(err: AppError, style: ApiContact.CatchStyle)
    requires err.name == "MongoError" || err.name == "MongooseError"
    ensures var m := ErrorMiddleware(err);
      var c := ApiContact.MapCaughtError(Thrown(err.name, err.message, []), style);
      m.status == c.status == 500 && m.code == c.code == "DATABASE_ERROR"
  {
  }

  /**
    A schema failure is reported differently: the middleware answers `VALIDATION_ERROR` with the
    error's message as a string, the catch block `MONGOOSE_VALIDATION_ERROR` with a list.
   */
  lemma ValidationErrorsDiffer(err: AppError, style: ApiContact.CatchStyle)
    requires err.name == "ValidationError"
    ensures var m := ErrorMiddleware(err);
      var c := ApiContact.MapCaughtError(Thrown(err.name, err.message, []), style);
      m.status == c.status == 400 && m.code != c.code && m.details.DetailText? && c.details.DetailList?
  {
  }

  const NotFound := Failed(404, "Route not found", "NOT_FOUND", NoDetails)

  /** What the matched route did: answered, passed an error on, or no route matched. */
  datatype Handled = Answered(response: Response) | Raised(error: AppError) | Unrouted

  /** The end of the middleware stack. */
  function Respond(h: Handled): (r: Response)
    ensures h.Unrouted? ==> r.HasCode("NOT_FOUND") && r.Status() == 404
    ensures h.Raised? ==> r == ErrorMiddleware(h.error)
    ensures h.Answered? ==> r == h.response
  {
    match h
    case Answered(resp) => resp
    case Raised(e) => ErrorMiddleware(e)
    case Unrouted => NotFound
  }

  /** Only an unmatched route, or an error carrying 404 itself, ends in a 404 from the application. */
  lemma NotFoundOnlyWhenUnrouted(h: Handled)
    requires !h.Answered?
    ensures Respond(h).Status() == 404 <==>
      || h.Unrouted?
      || (h.Raised? && h.error.status == 404
          && h.error.name != "ValidationError" && h.error.name != "MongoError" && h.error.name != "MongooseError")
  {
  }

  // ---------------------------------------------------------------------------
  // Once-only database initialisation

  /** The module-level `dbInitialized` flag and the shared connection object. */
  datatype InitState = InitState(dbInitialized: bool, db: Database.DbState)

  /** Connects unless a previous call succeeded; a failure is logged and swallowed. */
  function InitializeDatabase(s: InitState, readyState: int, uriSet: bool, outcomes: nat -> Database.Attempt): (r: InitState)
    ensures s.dbInitialized ==> r == s
    ensures !s.dbInitialized ==>
      var run := Database.Connect(s.db, readyState, uriSet, outcomes);
      r == InitState(run.result.Resolved?, run.state)
  {
    if s.dbInitialized then s
    else
      var run := Database.Connect(s.db, readyState, uriSet, outcomes);
      InitState(run.result == Database.Resolved, run.state)
  }

  /** The flag is set exactly when the connection object reports itself connected. */
  lemma InitializedIffConnected(s: InitState, readyState: int, uriSet: bool, outcomes: nat -> Database.Attempt)
    requires s.dbInitialized ==> s.db.isConnected
    ensures var r := InitializeDatabase(s, readyState, uriSet, outcomes);
      r.dbInitialized <==> r.db.isConnected
  {
  }

  /**
    After a first request whose connection kept failing, the next request tries again, but the
    retry budget is spent: it makes one driver attempt, not four.
   */
  lemma FailedStartLeavesOneAttempt(readyState: int, outcomes: nat -> Database.Attempt, later: nat -> Database.Attempt)
    requires readyState != 1
    requires forall k :: (outcomes(k).Fails? && !Database.IsAuthFailure(outcomes(k).error)
      && !Contains(outcomes(k).error.message, "authentication"))
    ensures var first := InitializeDatabase(InitState(false, Database.Fresh), readyState, true, outcomes);
      && !first.dbInitialized
      && Database.Connect(first.db, readyState, true, later).calls == 1
  {
    Database.PersistentFailureExhaustsRetries(Database.Fresh, readyState, outcomes, 0);
    var first := InitializeDatabase(InitState(false, Database.Fresh), readyState, true, outcomes);
    Database.ExhaustedObjectTriesOnce(first.db, readyState, true, later);
  }
}
