/**
  The serverless contact handler: preflight and method checks, the handler's own field checks on
  the raw input, the hourly per-address limit, five-minute duplicate detection, the save, and the
  mapping of whatever the store throws onto an error envelope. The store is threaded through as a
  value; the database's failures arrive as oracle values in `Env`.
 */
module ApiContact {
  import opened Base
  import opened Text
  import opened Envelope
  import opened ContactSchema
  import opened RateWindow

  /** The request headers the handler reads; `None` is an absent header. */
  datatype Headers = Headers(origin: Option<string>, forwardedFor: Option<string>, realIp: Option<string>, userAgent: Option<string>)

  /** The four fields of a body that is a JSON object with string values; `None` is a missing or `undefined` field. */
  datatype Body = Body(name: Option<string>, email: Option<string>, subject: Option<string>, message: Option<string>)

  datatype Request = Request(verb: string, headers: Headers, body: Body)

  /**
    What the handler cannot see: the validator library behind the schema, and the error, if any,
    that the count query, the duplicate query and the insert throw.
   */
  datatype Env = Env(checkers: Checkers, countFault: Option<Thrown>, findFault: Option<Thrown>, saveFault: Option<Thrown>)

  /** The answer and the store after the request. */
  datatype Outcome = Outcome(response: Response, store: seq<Record>)

  const DuplicateWindowMs := 300000
  const NameCharsMessage := "Name can only contain letters, spaces, hyphens, and apostrophes"

  // ---------------------------------------------------------------------------
  // Request metadata.

  /** The first comma-separated entry of `X-Forwarded-For`, trimmed; empty when the header is absent. */
  function ForwardedClient(h: Headers): (r: string)
    ensures IsTrimmed(r) && ',' !in r
    ensures h.forwardedFor.None? ==> r == []
    ensures h.forwardedFor.Some? ==> (r == [] <==> IsBlank(FirstField(h.forwardedFor.value)))
  {
    if h.forwardedFor.None? then []
    else
      var f := FirstField(h.forwardedFor.value);
      var r := Trim(f);
      assert forall i :: 0 <= i < |r| ==> r[i] in f;
      r
  }

  /** The client address: the forwarded entry, else `X-Real-IP`, else `0.0.0.0`; never empty. */
  function GetClientIP(h: Headers): (ip: string)
    ensures ip != []
    ensures ForwardedClient(h) != [] ==> ip == ForwardedClient(h)
    ensures ForwardedClient(h) == [] && h.realIp.Some? && h.realIp.value != [] ==> ip == h.realIp.value
    ensures ForwardedClient(h) == [] && (h.realIp.None? || h.realIp.value == []) ==> ip == "0.0.0.0"
  {
    var f := ForwardedClient(h);
    if f != [] then f
    else if h.realIp.Some? && h.realIp.value != [] then h.realIp.value
    else "0.0.0.0"
  }

  /** The `User-Agent` header, or `Unknown` when it is absent or empty. */
  function UserAgentOf(h: Headers): (ua: string)
    ensures ua != []
    ensures h.userAgent.Some? && h.userAgent.value != [] ==> ua == h.userAgent.value
    ensures h.userAgent.None? || h.userAgent.value == [] ==> ua == "Unknown"
  {
    if h.userAgent.Some? && h.userAgent.value != [] then h.userAgent.value else "Unknown"
  }

  /**
    The `Access-Control-Allow-Origin` value this handler sets: the request's origin when it is one of
    the configured or listed origins or mentions `vercel.app`, and `*` otherwise.
   */
  function AllowOrigin(origin: Option<string>, corsOrigin: Option<string>, frontendUrl: Option<string>): (v: string)
    ensures v == "*" || (origin.Some? && v == origin.value && v != [])
    ensures origin.Some? && Contains(origin.value, "vercel.app") ==> v == origin.value
    ensures origin.None? ==> v == "*"
    ensures v != "*" && origin.Some? && origin.value != "*" ==>
      origin.value in AllowedOrigins(corsOrigin, frontendUrl) || Contains(origin.value, "vercel.app")
  {
    if origin.None? || origin.value == [] then "*"
    else if origin.value in AllowedOrigins(corsOrigin, frontendUrl) || Contains(origin.value, "vercel.app") then origin.value
    else "*"
  }

  /** An environment setting that `filter(Boolean)` keeps: set and non-empty. */
  function Configured(v: Option<string>): (r: seq<string>)
    ensures v.Some? && v.value != [] ==> r == [v.value]
    ensures v.None? || v.value == [] ==> r == []
  {
    if v.Some? && v.value != [] then [v.value] else []
  }

  /** `CORS_ORIGIN` and `FRONTEND_URL` when set, followed by the fixed list. */
  function AllowedOrigins(corsOrigin: Option<string>, frontendUrl: Option<string>): (list: seq<string>)
    ensures forall i :: 0 <= i < |list| ==> list[i] != []
    ensures "http://localhost:5173" in list && "http://localhost:3000" in list && "http://localhost:3001" in list
    ensures corsOrigin.Some? && corsOrigin.value != [] ==> corsOrigin.value in list
    ensures frontendUrl.Some? && frontendUrl.value != [] ==> frontendUrl.value in list
  {
    Configured(corsOrigin) + Configured(frontendUrl) + EchoFixed
  }

  /** The fixed part of the function's own origin list. */
  const EchoFixed := [
    "http://localhost:5173",
    "http://localhost:3000",
    "http://localhost:3001",
    "https://portfolio-gamma-azure-zm0bqy9dij.vercel.app",
    "https://portfolio-backend-sigma-olive.vercel.app"]

  // ---------------------------------------------------------------------------
  // The handler's own field checks, on the values exactly as received.

  /** JavaScript truthiness of a body field: present and not the empty string. */
  predicate Present(v: Option<string>) {
    v.Some? && v.value != []
  }

  predicate AllPresent(b: Body) {
    Present(b.name) && Present(b.email) && Present(b.subject) && Present(b.message)
  }

  /** Every check the handler makes before touching the store, stated on the untrimmed values. */
  ghost predicate FieldsValid(b: Body) {
    && AllPresent(b)
    && 2 <= |b.name.value| <= 100 && MatchesNamePattern(b.name.value)
    && EmailShape(b.email.value)
    && 5 <= |b.subject.value| <= 200
    && 10 <= |b.message.value| <= 1000
  }

  const RequiredDetails := [
    Detail("name", "Name is required", None),
    Detail("email", "Email is required", None),
    Detail("subject", "Subject is required", None),
    Detail("message", "Message is required", None)]

  function Rejected(message: string, details: Details): Response {
    Failed(400, message, "VALIDATION_ERROR", details)
  }

  /** The first failing check's 400 answer, or `None` when the fields pass. */
  function CheckFields(b: Body): (r: Option<Response>)
    ensures r.None? <==> FieldsValid(b)
    ensures r.Some? ==> r.value.Status() == 400 && r.value.HasCode("VALIDATION_ERROR")
    ensures !AllPresent(b) ==> r == Some(Rejected("All fields are required", DetailList(RequiredDetails)))
    ensures AllPresent(b) && 2 <= |b.name.value| <= 100 && !MatchesNamePattern(b.name.value) ==>
      r == Some(Rejected(NameCharsMessage, DetailList([Detail("name", NameCharsMessage, Some(b.name.value))])))
  {
    if !AllPresent(b) then Some(Rejected("All fields are required", DetailList(RequiredDetails)))
    else
      var name := b.name.value;
      var email := b.email.value;
      var subject := b.subject.value;
      var message := b.message.value;
      if |name| < 2 || |name| > 100 then Some(Rejected("Name must be between 2 and 100 characters", NoDetails))
      else if !MatchesNamePattern(name) then
        Some(Rejected(NameCharsMessage, DetailList([Detail("name", NameCharsMessage, Some(name))])))
      else if !MatchesEmailPattern(email) then Some(Rejected("Please provide a valid email address", NoDetails))
      else if |subject| < 5 || |subject| > 200 then Some(Rejected("Subject must be between 5 and 200 characters", NoDetails))
      else if |message| < 10 || |message| > 1000 then Some(Rejected("Message must be between 10 and 1000 characters", NoDetails))
      else None
  }

  /** What the handler passes to `new Contact(...)`: trimmed text, a trimmed lower-cased address. */
  function DraftOf(b: Body, h: Headers): (d: Draft)
    requires AllPresent(b)
    ensures Cast(d) == d
    ensures d.ipAddress == GetClientIP(h) && d.userAgent == UserAgentOf(h)
  {
    var d := Draft(Trim(b.name.value), ToLower(Trim(b.email.value)), Trim(b.subject.value), Trim(b.message.value),
      GetClientIP(h), UserAgentOf(h));
    TrimIdempotent(b.name.value);
    TrimIdempotent(b.subject.value);
    TrimIdempotent(b.message.value);
    ToLowerKeepsTrimmed(Trim(b.email.value));
    TrimOfTrimmed(ToLower(Trim(b.email.value)));
    ToLowerIdempotent(Trim(b.email.value));
    d
  }

  // ---------------------------------------------------------------------------
  // Errors caught around the store calls.

  const CaughtCodes := {"MONGOOSE_VALIDATION_ERROR", "DATABASE_ERROR", "INTERNAL_SERVER_ERROR"}

  /** Which handler's catch block: the Express route leaves `details` off the generic answer. */
  datatype CatchStyle = Serverless | Express

  /** The catch block: schema failures, database failures, and everything else. */
  function MapCaughtError(e: Thrown, style: CatchStyle): (r: Response)
    ensures r.Failed? && r.code in CaughtCodes
    ensures IsValidationError(e) ==>
      r.status == 400 && r.code == "MONGOOSE_VALIDATION_ERROR"
      && r.details.DetailList? && DetailFieldErrors(r.details.items) == e.fieldErrors
    ensures !IsValidationError(e) && IsDatabaseError(e) ==>
      r == Failed(500, DatabaseSaveMessage, "DATABASE_ERROR", NoDetails)
    ensures !IsValidationError(e) && !IsDatabaseError(e) ==>
      r.status == 500 && r.message == UnexpectedMessage && r.code == "INTERNAL_SERVER_ERROR"
      && r.details == (if style.Serverless? then DetailText(e.message) else NoDetails)
  {
    if IsValidationError(e) then
      FieldErrorDetailsRoundTrip(e.fieldErrors);
      Failed(400, "Data validation failed", "MONGOOSE_VALIDATION_ERROR", DetailList(FieldErrorDetails(e.fieldErrors)))
    else if IsDatabaseError(e) then Failed(500, DatabaseSaveMessage, "DATABASE_ERROR", NoDetails)
    else Failed(500, UnexpectedMessage, "INTERNAL_SERVER_ERROR", if style.Serverless? then DetailText(e.message) else NoDetails)
  }

  /** The two catch blocks agree on everything but the generic answer's `details`. */
  lemma CatchStylesAgree(e: Thrown)
    ensures var x := MapCaughtError(e, Express);
      var s := MapCaughtError(e, Serverless);
      x.status == s.status && x.message == s.message && x.code == s.code
      && (x.details != s.details <==> !IsValidationError(e) && !IsDatabaseError(e))
  {
  }

  // ---------------------------------------------------------------------------
  // The handler.

  const MethodNotAllowed := Failed(405, "Method not allowed", "METHOD_NOT_ALLOWED", NoDetails)
  const RateLimited := Failed(429, RateLimitMessage, "IP_RATE_LIMIT_EXCEEDED", NoDetails)
  const Duplicate := Failed(409, DuplicateMessage, "DUPLICATE_SUBMISSION", NoDetails)

  /** A 201 answer together with the store it leaves: the old store plus one record stamped `now`. */
  predicate AcceptedInto(out: Outcome, store: seq<Record>, now: int) {
    && out.response.Created?
    && |out.store| == |store| + 1 && out.store[..|store|] == store
    && out.response.data == SubmissionData(|store|, now, "new")
    && out.store[|store|].id == |store| && out.store[|store|].timestamp == now
  }

  /** The two queries before the insert: the hourly limit and the duplicate check; `None` lets the request through. */
  function Screen(store: seq<Record>, d: Draft, now: int, env: Env, style: CatchStyle): (r: Option<Response>)
    ensures r.Some? ==> r.value.Failed? && r.value.code != "VALIDATION_ERROR"
    ensures r.None? ==> RecentSubmissionsCount(store, d.ipAddress, HourMs, now) < MaxPerHour
    ensures r.Some? && r.value.HasCode("DUPLICATE_SUBMISSION") ==>
      CheckForDuplicates(store, d.email, d.message, DuplicateWindowMs, now).Some?
  {
    if env.countFault.Some? then Some(MapCaughtError(env.countFault.value, style))
    else if RecentSubmissionsCount(store, d.ipAddress, HourMs, now) >= MaxPerHour then Some(RateLimited)
    else if env.findFault.Some? then Some(MapCaughtError(env.findFault.value, style))
    else if CheckForDuplicates(store, d.email, d.message, DuplicateWindowMs, now).Some? then Some(Duplicate)
    else None
  }

  /** The insert and its 201 answer, or the caught error. */
  function Commit(store: seq<Record>, d: Draft, now: int, env: Env, style: CatchStyle): (out: Outcome)
    ensures out.response.Failed? ==> out.response.code in CaughtCodes
    ensures !out.response.Created? ==> out.store == store
    ensures out.response.Created? <==> Save(store, d, now, env.checkers, env.saveFault).Saved?
    ensures out.response.Created? ==>
      && AcceptedInto(out, store, now) && out.store[|store|].ipAddress == d.ipAddress
      && out.store == store + [Save(store, d, now, env.checkers, env.saveFault).record]
    ensures out.response.Failed? ==> out.response == MapCaughtError(Save(store, d, now, env.checkers, env.saveFault).error, style)
  {
    match Save(store, d, now, env.checkers, env.saveFault)
    case SaveFailed(e) => Outcome(MapCaughtError(e, style), store)
    case Saved(rec) =>
      assert (store + [rec])[..|store|] == store;
      Outcome(Created(AcceptedMessage, SubmissionData(rec.id, rec.timestamp, StatusName(rec.status))), store + [rec])
  }

  /** The store stage, reached once the fields have passed. */
  function Persist(store: seq<Record>, d: Draft, now: int, env: Env, style: CatchStyle): (out: Outcome)
    ensures !out.response.HasCode("VALIDATION_ERROR")
    ensures !out.response.Created? ==> out.store == store
    ensures out.response.Created? ==> AcceptedInto(out, store, now) && out.store[|store|].ipAddress == d.ipAddress
    ensures out.response.Created? ==>
      && RecentSubmissionsCount(store, d.ipAddress, HourMs, now) < MaxPerHour
      && Save(store, d, now, env.checkers, env.saveFault).Saved?
      && out.store == store + [Save(store, d, now, env.checkers, env.saveFault).record]
    ensures out.response.HasCode("DUPLICATE_SUBMISSION") ==>
      CheckForDuplicates(store, d.email, d.message, DuplicateWindowMs, now).Some?
  {
    match Screen(store, d, now, env, style)
    case Some(r) => Outcome(r, store)
    case None => Commit(store, d, now, env, style)
  }

  /** One request against `store` at time `now`. */
  function Admit(store: seq<Record>, req: Request, now: int, env: Env): (out: Outcome)
    ensures req.verb == "OPTIONS" ==> out == Outcome(NoBody(200), store)
    ensures req.verb != "OPTIONS" && req.verb != "POST" ==> out == Outcome(MethodNotAllowed, store)
    ensures !out.response.Created? ==> out.store == store
    ensures out.response.Created? ==> AcceptedInto(out, store, now)
  {
    if req.verb == "OPTIONS" then Outcome(NoBody(200), store)
    else if req.verb != "POST" then Outcome(MethodNotAllowed, store)
    else
      match CheckFields(req.body)
      case Some(rejection) => Outcome(rejection, store)
      case None => Persist(store, DraftOf(req.body, req.headers), now, env, Serverless)
  }

  // ---------------------------------------------------------------------------
  // The store stage on its own, for a draft `d` that has passed the field checks.

  lemma PersistRateLimits(store: seq<Record>, d: Draft, now: int, env: Env, style: CatchStyle)
    requires env.countFault.None? && RecentSubmissionsCount(store, d.ipAddress, HourMs, now) >= MaxPerHour
    ensures Persist(store, d, now, env, style) == Outcome(RateLimited, store)
  {
    assert Screen(store, d, now, env, style) == Some(RateLimited);
  }

  lemma PersistRejectsDuplicate(store: seq<Record>, d: Draft, now: int, env: Env, style: CatchStyle, i: nat)
    requires env.countFault.None? && env.findFault.None?
    requires RecentSubmissionsCount(store, d.ipAddress, HourMs, now) < MaxPerHour
    requires i < |store| && IsDuplicateOf(store[i], d.email, d.message, now - DuplicateWindowMs)
    ensures Persist(store, d, now, env, style) == Outcome(Duplicate, store)
  {
    assert CheckForDuplicates(store, d.email, d.message, DuplicateWindowMs, now).Some?;
    assert Screen(store, d, now, env, style) == Some(Duplicate);
  }

  lemma PersistAcceptsExactly(store: seq<Record>, d: Draft, now: int, env: Env, style: CatchStyle)
    ensures Persist(store, d, now, env, style).response.Created? <==>
      && env.countFault.None? && env.findFault.None? && env.saveFault.None?
      && RecentSubmissionsCount(store, d.ipAddress, HourMs, now) < MaxPerHour
      && (forall j :: 0 <= j < |store| ==> !IsDuplicateOf(store[j], d.email, d.message, now - DuplicateWindowMs))
      && SatisfiesSchema(Cast(d), env.checkers)
  {
    var quiet := env.countFault.None? && env.findFault.None?
      && RecentSubmissionsCount(store, d.ipAddress, HourMs, now) < MaxPerHour
      && CheckForDuplicates(store, d.email, d.message, DuplicateWindowMs, now).None?;
    assert quiet <==> Screen(store, d, now, env, style).None?;
  }

  lemma PersistSchemaGap(store: seq<Record>, d: Draft, now: int, env: Env, style: CatchStyle)
    requires env.countFault.None? && env.findFault.None?
    requires RecentSubmissionsCount(store, d.ipAddress, HourMs, now) < MaxPerHour
    requires CheckForDuplicates(store, d.email, d.message, DuplicateWindowMs, now).None?
    requires !SatisfiesSchema(Cast(d), env.checkers)
    ensures Persist(store, d, now, env, style) == Outcome(Failed(400, "Data validation failed", "MONGOOSE_VALIDATION_ERROR",
      DetailList(FieldErrorDetails(Validate(Cast(d), env.checkers)))), store)
  {
    assert Screen(store, d, now, env, style).None?;
    var res := Save(store, d, now, env.checkers, env.saveFault);
    assert res == SaveFailed(Thrown("ValidationError", "Contact validation failed", Validate(Cast(d), env.checkers)));
  }

  // ---------------------------------------------------------------------------
  // What the handler guarantees.

  /** A request that passes the field checks goes to the store stage with its draft. */
  lemma AdmitReachesStore(store: seq<Record>, req: Request, now: int, env: Env)
    requires req.verb == "POST" && FieldsValid(req.body)
    ensures Admit(store, req, now, env) == Persist(store, DraftOf(req.body, req.headers), now, env, Serverless)
  {
  }

  /** The handler's own 400 answers come exactly from requests whose fields fail its checks. */
  lemma AdmitRejectsInvalidFields(store: seq<Record>, req: Request, now: int, env: Env)
    ensures Admit(store, req, now, env).response.HasCode("VALIDATION_ERROR") <==> req.verb == "POST" && !FieldsValid(req.body)
  {
    if req.verb == "POST" && FieldsValid(req.body) {
      AdmitReachesStore(store, req, now, env);
    }
  }

  /** The client's address as the store stage sees it. */
  function ClientOf(req: Request): string {
    GetClientIP(req.headers)
  }

  /** Five or more records from the address in the last hour: 429, nothing stored. */
  lemma AdmitRateLimits(store: seq<Record>, req: Request, now: int, env: Env)
    requires req.verb == "POST" && FieldsValid(req.body) && env.countFault.None?
    requires RecentSubmissionsCount(store, ClientOf(req), HourMs, now) >= MaxPerHour
    ensures Admit(store, req, now, env) == Outcome(RateLimited, store)
  {
    AdmitReachesStore(store, req, now, env);
    PersistRateLimits(store, DraftOf(req.body, req.headers), now, env, Serverless);
  }

  /**
    A record from the last five minutes with the same trimmed lower-cased address and the same
    trimmed message: 409, nothing stored.
   */
  lemma AdmitRejectsDuplicate(store: seq<Record>, req: Request, now: int, env: Env, i: nat)
    requires req.verb == "POST" && FieldsValid(req.body)
    requires env.countFault.None? && env.findFault.None?
    requires RecentSubmissionsCount(store, ClientOf(req), HourMs, now) < MaxPerHour
    requires i < |store|
    requires IsDuplicateOf(store[i], ToLower(Trim(req.body.email.value)), Trim(req.body.message.value), now - DuplicateWindowMs)
    ensures Admit(store, req, now, env) == Outcome(Duplicate, store)
  {
    AdmitReachesStore(store, req, now, env);
    PersistRejectsDuplicate(store, DraftOf(req.body, req.headers), now, env, Serverless, i);
  }

  /** A submission that passed the field checks is stored exactly when every later step lets it through. */
  lemma AdmitAcceptsExactly(store: seq<Record>, req: Request, now: int, env: Env)
    requires req.verb == "POST" && FieldsValid(req.body)
    ensures var d := DraftOf(req.body, req.headers);
      Admit(store, req, now, env).response.Created? <==>
        && env.countFault.None? && env.findFault.None? && env.saveFault.None?
        && RecentSubmissionsCount(store, ClientOf(req), HourMs, now) < MaxPerHour
        && (forall j :: 0 <= j < |store| ==> !IsDuplicateOf(store[j], d.email, d.message, now - DuplicateWindowMs))
        && SatisfiesSchema(d, env.checkers)
  {
    AdmitReachesStore(store, req, now, env);
    PersistAcceptsExactly(store, DraftOf(req.body, req.headers), now, env, Serverless);
  }

  /** The stored record: the trimmed fields, the address lower-cased, through the pre-save hook, with the defaults. */
  lemma AdmitStoresRecord(store: seq<Record>, req: Request, now: int, env: Env)
    requires req.verb == "POST" && Admit(store, req, now, env).response.Created?
    ensures var b := req.body;
      && AllPresent(b)
      && Admit(store, req, now, env).store == store + [PreSave(Record(|store|, Trim(b.name.value), ToLower(Trim(b.email.value)),
           Trim(b.subject.value), Trim(b.message.value), ClientOf(req), UserAgentOf(req.headers), now, New, false, 0))]
  {
    AdmitRejectsInvalidFields(store, req, now, env);
    AdmitReachesStore(store, req, now, env);
  }

  /**
    The handler measures lengths before trimming and never bounds the address length, while the
    schema measures after trimming and caps the address at 254: input the handler lets through
    that the schema refuses comes back as a 400 listing the schema's own errors.
   */
  lemma AdmitSchemaGap(store: seq<Record>, req: Request, now: int, env: Env)
    requires req.verb == "POST" && FieldsValid(req.body)
    requires env.countFault.None? && env.findFault.None?
    requires RecentSubmissionsCount(store, ClientOf(req), HourMs, now) < MaxPerHour
    requires CheckForDuplicates(store, DraftOf(req.body, req.headers).email, DraftOf(req.body, req.headers).message,
      DuplicateWindowMs, now).None?
    requires !SatisfiesSchema(DraftOf(req.body, req.headers), env.checkers)
    ensures var out := Admit(store, req, now, env);
      && out.store == store
      && out.response == Failed(400, "Data validation failed", "MONGOOSE_VALIDATION_ERROR",
           DetailList(FieldErrorDetails(Validate(DraftOf(req.body, req.headers), env.checkers))))
  {
    AdmitReachesStore(store, req, now, env);
    PersistSchemaGap(store, DraftOf(req.body, req.headers), now, env, Serverless);
  }

  /** A name padded with blanks passes the handler's length check yet is one letter once trimmed. */
  lemma PaddedNameSlipsPast()
    ensures 2 <= |" A "| <= 100 && MatchesNamePattern(" A ")
    ensures Trim(" A ") == "A" && NameError(Trim(" A ")).Some?
  {
    assert IsSpace(' ') && !IsSpace('A');
    assert SkipSpaces(" A ", 0) == 1;
    assert SkipSpacesBack(" A ", 3) == 2;
  }

  // ---------------------------------------------------------------------------
  // Invariants over a sequence of requests.

  /** One request as it reaches the handler: the request, the clock, and the oracles. */
  datatype Arrival = Arrival(request: Request, now: int, env: Env)

  /** The store after the handler has served `arrivals` in order. */
  function Run(store: seq<Record>, arrivals: seq<Arrival>): (final: seq<Record>)
    ensures |store| <= |final| <= |store| + |arrivals|
    ensures final[..|store|] == store
    decreases |arrivals|
  {
    if |arrivals| == 0 then store
    else
      var a := arrivals[0];
      var next := Admit(store, a.request, a.now, a.env).store;
      AdmitExtends(store, a.request, a.now, a.env);
      var final := Run(next, arrivals[1..]);
      assert final[..|store|] == final[..|next|][..|store|];
      final
  }

  /** A request leaves the store as it was or adds one record at its end. */
  lemma AdmitExtends(store: seq<Record>, req: Request, now: int, env: Env)
    ensures var next := Admit(store, req, now, env).store;
      |store| <= |next| <= |store| + 1 && next[..|store|] == store
  {
  }

  /** The store stage never breaks the hourly bound: it counts before it inserts. */
  lemma PersistKeepsHourlyBound(store: seq<Record>, d: Draft, now: int, env: Env, style: CatchStyle)
    requires HourlyBounded(store)
    ensures HourlyBounded(Persist(store, d, now, env, style).store)
  {
    var out := Persist(store, d, now, env, style);
    if out.response.Created? {
      var rec := out.store[|store|];
      assert out.store == store + [rec];
      AppendKeepsBound(store, rec);
    }
  }

  lemma AdmitKeepsHourlyBound(store: seq<Record>, req: Request, now: int, env: Env)
    requires HourlyBounded(store)
    ensures HourlyBounded(Admit(store, req, now, env).store)
  {
    if req.verb == "POST" && FieldsValid(req.body) {
      AdmitReachesStore(store, req, now, env);
      PersistKeepsHourlyBound(store, DraftOf(req.body, req.headers), now, env, Serverless);
    } else {
      AdmitRejectsInvalidFields(store, req, now, env);
    }
  }

  /** Whatever arrives, no address ever has more than five stored submissions within one hour. */
  lemma {:induction false} RunKeepsHourlyBound(store: seq<Record>, arrivals: seq<Arrival>, ip: string, t: int)
    requires HourlyBounded(store)
    ensures HourlyBounded(Run(store, arrivals))
    ensures HourCount(Run(store, arrivals), ip, t) <= MaxPerHour
    decreases |arrivals|
  {
    if |arrivals| == 0 {
      AnyHourAtMostFive(store, ip, t);
    } else {
      var a := arrivals[0];
      AdmitKeepsHourlyBound(store, a.request, a.now, a.env);
      RunKeepsHourlyBound(Admit(store, a.request, a.now, a.env).store, arrivals[1..], ip, t);
    }
  }

  /** Every stored message has been through the pre-save sanitiser, so none holds a tag. */
  ghost predicate MessagesSanitised(store: seq<Record>) {
    forall i :: 0 <= i < |store| ==> NoTag(store[i].message)
  }

  lemma SanitisedAppend(store: seq<Record>, rec: Record)
    requires MessagesSanitised(store) && NoTag(rec.message)
    ensures MessagesSanitised(store + [rec])
  {
    forall i | 0 <= i < |store| + 1
      ensures NoTag((store + [rec])[i].message)
    {
      if i < |store| {
        assert (store + [rec])[i] == store[i];
      }
    }
  }

  lemma PersistKeepsSanitised(store: seq<Record>, d: Draft, now: int, env: Env, style: CatchStyle)
    requires MessagesSanitised(store)
    ensures MessagesSanitised(Persist(store, d, now, env, style).store)
  {
    var out := Persist(store, d, now, env, style);
    if out.response.Created? {
      var rec := Save(store, d, now, env.checkers, env.saveFault).record;
      assert out.store == store + [rec];
      SanitisedAppend(store, rec);
    }
  }

  lemma AdmitKeepsSanitised(store: seq<Record>, req: Request, now: int, env: Env)
    requires MessagesSanitised(store)
    ensures MessagesSanitised(Admit(store, req, now, env).store)
  {
    if req.verb == "POST" && FieldsValid(req.body) {
      AdmitReachesStore(store, req, now, env);
      PersistKeepsSanitised(store, DraftOf(req.body, req.headers), now, env, Serverless);
    } else {
      AdmitRejectsInvalidFields(store, req, now, env);
    }
  }

  /**
    The duplicate query compares the trimmed message with stored messages, which are sanitised: a
    message holding a tag matches no stored record, so resubmitting it is never reported as a duplicate.
   */
  lemma TaggedMessageNeverDuplicate(store: seq<Record>, req: Request, now: int, env: Env)
    requires MessagesSanitised(store)
    requires req.body.message.Some? && !NoTag(Trim(req.body.message.value))
    ensures !Admit(store, req, now, env).response.HasCode("DUPLICATE_SUBMISSION")
  {
    if req.verb == "POST" && FieldsValid(req.body) {
      var d := DraftOf(req.body, req.headers);
      AdmitReachesStore(store, req, now, env);
      NoStoredTaggedMessage(store, d.email, d.message, now - DuplicateWindowMs);
    } else {
      AdmitRejectsInvalidFields(store, req, now, env);
    }
  }

  /** A created submission's record holds the sanitised message under the lower-cased address. */
  lemma AdmitStoresSanitised(store: seq<Record>, req: Request, now: int, env: Env)
    requires req.verb == "POST" && Admit(store, req, now, env).response.Created?
    ensures var stored := Admit(store, req, now, env).store;
      && |stored| == |store| + 1 && req.body.email.Some? && req.body.message.Some?
      && IsDuplicateOf(stored[|store|], ToLower(Trim(req.body.email.value)), Sanitise(Trim(req.body.message.value)), now)
  {
    AdmitStoresRecord(store, req, now, env);
  }

  /**
    The other side of sanitising after the duplicate query: a message that ends in a tag is
    stored as its words alone, so the words sent again on their own from the same address within
    five minutes are a 409, although that text was never submitted before.
   */
  lemma StrippedTagMakesDuplicate(store: seq<Record>, first: Request, now: int, env: Env,
                                  second: Request, later: int, env': Env, w: string, x: string)
    requires |w| > 0 && IsTrimmed(w) && NoDoubleSpace(w) && OnlyBlanks(w) && '<' !in w
    requires '>' !in x && forall i :: 0 <= i < |x| ==> !IsSpace(x[i])
    requires first.verb == "POST" && first.body.message == Some(w + [' '] + (['<'] + x + ['>']))
    requires Admit(store, first, now, env).response.Created?
    requires second.verb == "POST" && FieldsValid(second.body)
    requires second.body.email == first.body.email && second.body.message == Some(w)
    requires env'.countFault.None? && env'.findFault.None?
    requires RecentSubmissionsCount(Admit(store, first, now, env).store, ClientOf(second), HourMs, later) < MaxPerHour
    requires now <= later <= now + DuplicateWindowMs
    ensures var stored := Admit(store, first, now, env).store;
      Admit(stored, second, later, env') == Outcome(Duplicate, stored)
  {
    TrailingTagDropped(w, x);
    AdmitStoresSanitised(store, first, now, env);
    TrimOfTrimmed(w);
    AdmitRejectsDuplicate(Admit(store, first, now, env).store, second, later, env', |store|);
  }

  lemma NoStoredTaggedMessage(store: seq<Record>, email: string, message: string, since: int)
    requires MessagesSanitised(store) && !NoTag(message)
    ensures CheckForDuplicates(store, email, message, DuplicateWindowMs, since + DuplicateWindowMs).None?
  {
    forall j | 0 <= j < |store|
      ensures !IsDuplicateOf(store[j], email, message, since)
    {
      assert NoTag(store[j].message);
    }
  }
}
