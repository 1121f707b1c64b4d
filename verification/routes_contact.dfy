/**
  The Express contact route: the express-validator chains (trim, then check, then sanitise), the
  400 answer listing every failed check, then the same store stage as the serverless handler, and
  the statistics endpoint. The validator library's `isEmail`, `normalizeEmail` and `escape` are
  parameters.
 */
module RoutesContact {
  import opened Base
  import opened Text
  import opened Envelope
  import opened ContactSchema
  import opened RateWindow
  import opened ApiContact

  /** The connection addresses Express offers, in the order the route tries them. */
  datatype Peer = Peer(ip: Option<string>, connectionRemote: Option<string>, socketRemote: Option<string>, connectionSocketRemote: Option<string>)

  /** express-validator's `isEmail`, `normalizeEmail` and `escape`, which this model does not interpret. */
  datatype Sanitizers = Sanitizers(isEmail: string -> bool, normalizeEmail: string -> string, escape: string -> string)

  datatype RouteRequest = RouteRequest(peer: Peer, headers: Headers, body: Body)

  const NameLengthMessage := "Name must be between 2 and 100 characters"
  const EmailFormatMessage := "Please provide a valid email address"
  const EmailLengthMessage := "Email cannot exceed 254 characters"
  const SubjectLengthMessage := "Subject must be between 5 and 200 characters"
  const MessageLengthMessage := "Message must be between 10 and 1000 characters"

  // ---------------------------------------------------------------------------
  // Client address.

  /** `a || b || ... || fallback` over optional strings: the first present, non-empty candidate. */
  function FirstTruthy(candidates: seq<Option<string>>, fallback: string): (r: string)
    ensures r == fallback || exists i :: 0 <= i < |candidates| && Present(candidates[i]) && r == candidates[i].value
    ensures (forall i :: 0 <= i < |candidates| ==> !Present(candidates[i])) ==> r == fallback
    ensures forall i :: 0 <= i < |candidates| && Present(candidates[i]) ==>
      (forall j :: 0 <= j < i ==> !Present(candidates[j])) ==> r == candidates[i].value
    decreases |candidates|
  {
    if |candidates| == 0 then fallback
    else if Present(candidates[0]) then candidates[0].value
    else
      var r := FirstTruthy(candidates[1..], fallback);
      assert forall i :: 1 <= i < |candidates| ==> candidates[i] == candidates[1..][i - 1];
      r
  }

  /** The route's client address: the first address Express knows, else `0.0.0.0`; never empty. */
  function RouteClientIP(p: Peer): (ip: string)
    ensures ip != []
  {
    FirstTruthy([p.ip, p.connectionRemote, p.socketRemote, p.connectionSocketRemote], "0.0.0.0")
  }

  // ---------------------------------------------------------------------------
  // The validation chains.

  /** A body field as the chains see it: absent reads as empty, and `trim()` runs first. */
  function Trimmed(v: Option<string>): string {
    Trim(v.GetOr(""))
  }

  /** Every check of every chain holds, on the trimmed values. */
  ghost predicate RulesHold(b: Body, isEmail: string -> bool) {
    && 2 <= |Trimmed(b.name)| <= 100 && MatchesNamePattern(Trimmed(b.name))
    && isEmail(Trimmed(b.email)) && |Trimmed(b.email)| <= 254
    && 5 <= |Trimmed(b.subject)| <= 200
    && 10 <= |Trimmed(b.message)| <= 1000
  }

  /** The raw value of the body field a path names. */
  function FieldAt(b: Body, path: string): Option<string> {
    if path == "name" then b.name
    else if path == "email" then b.email
    else if path == "subject" then b.subject
    else b.message
  }

  /** Position of a path's chain in the rule list. */
  function ChainRank(path: string): nat {
    if path == "name" then 0 else if path == "email" then 1 else if path == "subject" then 2 else 3
  }

  /** One check of a chain: an error carrying the checked value when it fails. */
  function Check(ok: bool, path: string, message: string, value: string): (errs: seq<FieldError>)
    ensures |errs| <= 1 && (errs == [] <==> ok)
    ensures Block(errs, path, value)
  {
    if ok then [] else [FieldError(path, message, value)]
  }

  /** Every error of `errs` is about `path` and carries `value`. */
  predicate Block(errs: seq<FieldError>, path: string, value: string) {
    forall i :: 0 <= i < |errs| ==> errs[i].path == path && errs[i].value == value
  }

  /** Errors appear chain by chain. */
  predicate InChainOrder(errs: seq<FieldError>) {
    forall i, j :: 0 <= i < j < |errs| ==> ChainRank(errs[i].path) <= ChainRank(errs[j].path)
  }

  lemma BlocksInOrder(a: seq<FieldError>, b: seq<FieldError>, pb: string, vb: string)
    requires InChainOrder(a) && Block(b, pb, vb)
    requires forall i :: 0 <= i < |a| ==> ChainRank(a[i].path) <= ChainRank(pb)
    ensures InChainOrder(a + b)
  {
    var c := a + b;
    forall i, j | 0 <= i < j < |c|
      ensures ChainRank(c[i].path) <= ChainRank(c[j].path)
    {
      if j >= |a| {
        assert c[j] == b[j - |a|];
        if i >= |a| {
          assert c[i] == b[i - |a|];
        } else {
          assert c[i] == a[i];
        }
      } else {
        assert c[i] == a[i] && c[j] == a[j];
      }
    }
  }

  function NameErrors(n: string): (errs: seq<FieldError>)
    ensures |errs| <= 2 && (errs == [] <==> 2 <= |n| <= 100 && MatchesNamePattern(n))
    ensures Block(errs, "name", n)
  {
    Check(2 <= |n| <= 100, "name", NameLengthMessage, n) + Check(MatchesNamePattern(n), "name", NameCharsMessage, n)
  }

  function EmailErrors(e: string, isEmail: string -> bool): (errs: seq<FieldError>)
    ensures |errs| <= 2 && (errs == [] <==> isEmail(e) && |e| <= 254)
    ensures Block(errs, "email", e)
    ensures |e| > 254 ==> errs[|errs| - 1].message == EmailLengthMessage
  {
    Check(isEmail(e), "email", EmailFormatMessage, e) + Check(|e| <= 254, "email", EmailLengthMessage, e)
  }

  /** The four chains on already trimmed values, in rule order. */
  function ChainErrors(n: string, e: string, s: string, m: string, isEmail: string -> bool): (errs: seq<FieldError>)
    ensures errs == [] <==>
      2 <= |n| <= 100 && MatchesNamePattern(n) && isEmail(e) && |e| <= 254 && 5 <= |s| <= 200 && 10 <= |m| <= 1000
    ensures |errs| <= 6
    ensures forall i :: 0 <= i < |errs| ==>
      || (errs[i].path == "name" && errs[i].value == n)
      || (errs[i].path == "email" && errs[i].value == e)
      || (errs[i].path == "subject" && errs[i].value == s)
      || (errs[i].path == "message" && errs[i].value == m)
  {
    var ne := NameErrors(n);
    var ee := EmailErrors(e, isEmail);
    var se := Check(5 <= |s| <= 200, "subject", SubjectLengthMessage, s);
    var me := Check(10 <= |m| <= 1000, "message", MessageLengthMessage, m);
    BlocksCarryValues(ne, ee, se, me, n, e, s, m);
    ne + ee + se + me
  }

  /** Errors come chain by chain: name, then email, then subject, then message. */
  lemma ChainErrorsInOrder(n: string, e: string, s: string, m: string, isEmail: string -> bool)
    ensures InChainOrder(ChainErrors(n, e, s, m, isEmail))
  {
    var ne := NameErrors(n);
    var ee := EmailErrors(e, isEmail);
    var se := Check(5 <= |s| <= 200, "subject", SubjectLengthMessage, s);
    var me := Check(10 <= |m| <= 1000, "message", MessageLengthMessage, m);
    BlocksInOrder([], ne, "name", n);
    assert [] + ne == ne;
    BlocksInOrder(ne, ee, "email", e);
    BlocksInOrder(ne + ee, se, "subject", s);
    BlocksInOrder(ne + ee + se, me, "message", m);
  }

  /**
    `validationResult(req).array()`: every failed check, chain by chain and check by check; each
    error carries the trimmed value the check saw.
   */
  function RuleErrors(b: Body, isEmail: string -> bool): (errs: seq<FieldError>)
    ensures errs == [] <==> RulesHold(b, isEmail)
    ensures |errs| <= 6
    ensures InChainOrder(errs)
    ensures forall i :: 0 <= i < |errs| ==>
      errs[i].path in {"name", "email", "subject", "message"} && errs[i].value == Trimmed(FieldAt(b, errs[i].path))
  {
    ChainErrorsInOrder(Trimmed(b.name), Trimmed(b.email), Trimmed(b.subject), Trimmed(b.message), isEmail);
    ChainErrors(Trimmed(b.name), Trimmed(b.email), Trimmed(b.subject), Trimmed(b.message), isEmail)
  }

  lemma BlocksCarryValues(ne: seq<FieldError>, ee: seq<FieldError>, se: seq<FieldError>, me: seq<FieldError>,
    n: string, e: string, s: string, m: string)
    requires Block(ne, "name", n) && Block(ee, "email", e) && Block(se, "subject", s) && Block(me, "message", m)
    ensures var errs := ne + ee + se + me;
      forall i :: 0 <= i < |errs| ==>
        || (errs[i].path == "name" && errs[i].value == n)
        || (errs[i].path == "email" && errs[i].value == e)
        || (errs[i].path == "subject" && errs[i].value == s)
        || (errs[i].path == "message" && errs[i].value == m)
  {
    var errs := ne + ee + se + me;
    forall i | 0 <= i < |errs|
      ensures
        || (errs[i].path == "name" && errs[i].value == n)
        || (errs[i].path == "email" && errs[i].value == e)
        || (errs[i].path == "subject" && errs[i].value == s)
        || (errs[i].path == "message" && errs[i].value == m)
    {
      if i < |ne| { assert errs[i] == ne[i]; }
      else if i < |ne| + |ee| { assert errs[i] == ee[i - |ne|]; }
      else if i < |ne| + |ee| + |se| { assert errs[i] == se[i - |ne| - |ee|]; }
      else { assert errs[i] == me[i - |ne| - |ee| - |se|]; }
    }
  }

  /** The checks see only trimmed values: bodies that agree once trimmed get the same errors. */
  lemma RulesSeeTrimmedValues(b1: Body, b2: Body, isEmail: string -> bool)
    requires Trimmed(b1.name) == Trimmed(b2.name) && Trimmed(b1.email) == Trimmed(b2.email)
    requires Trimmed(b1.subject) == Trimmed(b2.subject) && Trimmed(b1.message) == Trimmed(b2.message)
    ensures RuleErrors(b1, isEmail) == RuleErrors(b2, isEmail)
  {
  }

  /**
    The serverless handler's own field checks never bound the address length: an address over 254
    characters that has the right shape passes them, while the route's checks reject it.
   */
  lemma LongAddressOnlyRouteRejects(b: Body, isEmail: string -> bool)
    requires FieldsValid(b) && |Trimmed(b.email)| > 254
    ensures CheckFields(b).None?
    ensures exists i :: 0 <= i < |RuleErrors(b, isEmail)| && RuleErrors(b, isEmail)[i].message == EmailLengthMessage
  {
    LongAddressReported(Trimmed(b.name), Trimmed(b.email), Trimmed(b.subject), Trimmed(b.message), isEmail);
    assert RuleErrors(b, isEmail) == ChainErrors(Trimmed(b.name), Trimmed(b.email), Trimmed(b.subject), Trimmed(b.message), isEmail);
  }

  lemma LongAddressReported(n: string, e: string, s: string, m: string, isEmail: string -> bool)
    requires |e| > 254
    ensures exists i :: 0 <= i < |ChainErrors(n, e, s, m, isEmail)| && ChainErrors(n, e, s, m, isEmail)[i].message == EmailLengthMessage
  {
    var ne := NameErrors(n);
    var ee := EmailErrors(e, isEmail);
    var errs := ChainErrors(n, e, s, m, isEmail);
    assert errs[|ne| + |ee| - 1] == ee[|ee| - 1];
  }

  /** What the route hands to `new Contact(...)`: the sanitised values after a successful validation. */
  function RouteDraft(req: RouteRequest, sz: Sanitizers): (d: Draft)
    ensures d.ipAddress == RouteClientIP(req.peer) && d.userAgent == UserAgentOf(req.headers)
    ensures d.email == sz.normalizeEmail(Trimmed(req.body.email)) && d.message == sz.escape(Trimmed(req.body.message))
  {
    Draft(sz.escape(Trimmed(req.body.name)), sz.normalizeEmail(Trimmed(req.body.email)),
      sz.escape(Trimmed(req.body.subject)), sz.escape(Trimmed(req.body.message)),
      RouteClientIP(req.peer), UserAgentOf(req.headers))
  }

  /** The 400 answer for failed checks: one detail per error, in order. */
  function ValidationFailed(errs: seq<FieldError>): (r: Response)
    ensures r.Failed? && r.status == 400 && r.code == "VALIDATION_ERROR" && r.details.DetailList?
    ensures |r.details.items| == |errs| && DetailFieldErrors(r.details.items) == errs
  {
    FieldErrorDetailsRoundTrip(errs);
    Failed(400, "Validation failed", "VALIDATION_ERROR", DetailList(FieldErrorDetails(errs)))
  }

  /** `POST /api/contact`. */
  function Route(store: seq<Record>, req: RouteRequest, now: int, env: Env, sz: Sanitizers): (out: Outcome)
    ensures out.response.HasCode("VALIDATION_ERROR") <==> !RulesHold(req.body, sz.isEmail)
    ensures !RulesHold(req.body, sz.isEmail) ==> out == Outcome(ValidationFailed(RuleErrors(req.body, sz.isEmail)), store)
    ensures !out.response.Created? ==> out.store == store
    ensures out.response.Created? ==> AcceptedInto(out, store, now)
  {
    var errs := RuleErrors(req.body, sz.isEmail);
    if errs != [] then Outcome(ValidationFailed(errs), store)
    else Persist(store, RouteDraft(req, sz), now, env, Express)
  }

  lemma RouteReachesStore(store: seq<Record>, req: RouteRequest, now: int, env: Env, sz: Sanitizers)
    requires RulesHold(req.body, sz.isEmail)
    ensures Route(store, req, now, env, sz) == Persist(store, RouteDraft(req, sz), now, env, Express)
  {
  }

  /** Five or more records from the address in the last hour: 429, nothing stored; checked before duplicates. */
  lemma RouteRateLimits(store: seq<Record>, req: RouteRequest, now: int, env: Env, sz: Sanitizers)
    requires RulesHold(req.body, sz.isEmail) && env.countFault.None?
    requires RecentSubmissionsCount(store, RouteClientIP(req.peer), HourMs, now) >= MaxPerHour
    ensures Route(store, req, now, env, sz) == Outcome(RateLimited, store)
  {
    RouteReachesStore(store, req, now, env, sz);
    PersistRateLimits(store, RouteDraft(req, sz), now, env, Express);
  }

  /** A recent record with the normalised address and the escaped message: 409, nothing stored. */
  lemma RouteRejectsDuplicate(store: seq<Record>, req: RouteRequest, now: int, env: Env, sz: Sanitizers, i: nat)
    requires RulesHold(req.body, sz.isEmail) && env.countFault.None? && env.findFault.None?
    requires RecentSubmissionsCount(store, RouteClientIP(req.peer), HourMs, now) < MaxPerHour
    requires i < |store|
    requires IsDuplicateOf(store[i], sz.normalizeEmail(Trimmed(req.body.email)), sz.escape(Trimmed(req.body.message)),
      now - DuplicateWindowMs)
    ensures Route(store, req, now, env, sz) == Outcome(Duplicate, store)
  {
    RouteReachesStore(store, req, now, env, sz);
    PersistRejectsDuplicate(store, RouteDraft(req, sz), now, env, Express, i);
  }

  /** A valid submission is stored exactly when every later step lets it through, as the sanitised draft. */
  lemma RouteAcceptsExactly(store: seq<Record>, req: RouteRequest, now: int, env: Env, sz: Sanitizers)
    requires RulesHold(req.body, sz.isEmail)
    ensures var d := RouteDraft(req, sz);
      var out := Route(store, req, now, env, sz);
      && (out.response.Created? <==>
          && env.countFault.None? && env.findFault.None? && env.saveFault.None?
          && RecentSubmissionsCount(store, RouteClientIP(req.peer), HourMs, now) < MaxPerHour
          && (forall j :: 0 <= j < |store| ==> !IsDuplicateOf(store[j], d.email, d.message, now - DuplicateWindowMs))
          && SatisfiesSchema(Cast(d), env.checkers))
      && (out.response.Created? ==> out.store == store + [Save(store, d, now, env.checkers, env.saveFault).record])
  {
    RouteReachesStore(store, req, now, env, sz);
    PersistAcceptsExactly(store, RouteDraft(req, sz), now, env, Express);
  }

  /** Unlike the serverless handler, the route's generic 500 answer carries no `details`. */
  lemma RouteGenericFailureHasNoDetails(store: seq<Record>, req: RouteRequest, now: int, env: Env, sz: Sanitizers)
    requires RulesHold(req.body, sz.isEmail)
    requires env.countFault.Some? && !IsValidationError(env.countFault.value) && !IsDatabaseError(env.countFault.value)
    ensures Route(store, req, now, env, sz) == Outcome(Failed(500, UnexpectedMessage, "INTERNAL_SERVER_ERROR", NoDetails), store)
  {
    RouteReachesStore(store, req, now, env, sz);
    assert Screen(store, RouteDraft(req, sz), now, env, Express) == Some(MapCaughtError(env.countFault.value, Express));
  }

  lemma RouteKeepsHourlyBound(store: seq<Record>, req: RouteRequest, now: int, env: Env, sz: Sanitizers)
    requires HourlyBounded(store)
    ensures HourlyBounded(Route(store, req, now, env, sz).store)
  {
    if RulesHold(req.body, sz.isEmail) {
      RouteReachesStore(store, req, now, env, sz);
      PersistKeepsHourlyBound(store, RouteDraft(req, sz), now, env, Express);
    }
  }

  // ---------------------------------------------------------------------------
  // GET /api/contact/stats

  const WeekMs := 7 * 24 * 60 * 60 * 1000

  datatype ContactStats = ContactStats(totalSubmissions: nat, todaySubmissions: nat, thisWeekSubmissions: nat)

  datatype StatsResponse = StatsOk(data: ContactStats) | StatsFailed(status: nat, message: string, code: string)

  predicate StampedSince(r: Record, since: int) {
    r.timestamp >= since
  }

  function CountSince(store: seq<Record>, since: int): (n: nat)
    ensures n <= |store|
  {
    CountWhere(store, (r: Record) => StampedSince(r, since))
  }

  /**
    The aggregate at time `now`, where `startOfToday` is local midnight; `fault` is an error the
    aggregation throws, if any. An empty collection yields the all-zero default.
   */
  function Stats(store: seq<Record>, startOfToday: int, now: int, fault: Option<Thrown>): (r: StatsResponse)
    ensures r.StatsFailed? <==> fault.Some?
    ensures r.StatsFailed? ==> r == StatsFailed(500, "Failed to fetch statistics", "STATS_ERROR")
    ensures r.StatsOk? ==>
      r.data.totalSubmissions == |store|
      && r.data.todaySubmissions <= r.data.totalSubmissions && r.data.thisWeekSubmissions <= r.data.totalSubmissions
      && r.data.todaySubmissions == CountSince(store, startOfToday)
      && r.data.thisWeekSubmissions == CountSince(store, now - WeekMs)
    ensures r.StatsOk? && store == [] ==> r.data == ContactStats(0, 0, 0)
  {
    if fault.Some? then StatsFailed(500, "Failed to fetch statistics", "STATS_ERROR")
    else if |store| == 0 then StatsOk(ContactStats(0, 0, 0))
    else StatsOk(ContactStats(|store|, CountSince(store, startOfToday), CountSince(store, now - WeekMs)))
  }

  /** When local midnight lies within the last seven days, today's count never exceeds the week's. */
  lemma TodayWithinWeek(store: seq<Record>, startOfToday: int, now: int)
    requires now - WeekMs <= startOfToday
    ensures CountSince(store, startOfToday) <= CountSince(store, now - WeekMs)
  {
    CountWhereMono(store, (r: Record) => StampedSince(r, startOfToday), (r: Record) => StampedSince(r, now - WeekMs));
  }

  /** A submission stamped `now`, after local midnight, raises all three counts by one. */
  lemma StatsCountNewSubmission(store: seq<Record>, rec: Record, startOfToday: int, now: int)
    requires startOfToday <= now && rec.timestamp == now
    ensures var before := Stats(store, startOfToday, now, None).data;
      var after := Stats(store + [rec], startOfToday, now, None).data;
      after == ContactStats(before.totalSubmissions + 1, before.todaySubmissions + 1, before.thisWeekSubmissions + 1)
  {
    CountWhereAppend(store, rec, (r: Record) => StampedSince(r, startOfToday));
    CountWhereAppend(store, rec, (r: Record) => StampedSince(r, now - WeekMs));
  }
}
