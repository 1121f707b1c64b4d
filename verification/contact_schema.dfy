/**
  The contact-submission record: schema constraints and defaults, the setters applied on
  construction, the pre-save sanitiser, and the two store queries behind rate limiting and
  duplicate detection. The collection is a sequence of records in insertion order.
 */
module ContactSchema {
  import opened Base
  import opened Text
  import opened Envelope

  datatype Status = New | Read | Replied | Archived

  function StatusName(s: Status): string {
    match s
    case New => "new"
    case Read => "read"
    case Replied => "replied"
    case Archived => "archived"
  }

  /** A stored document; `version` is mongoose's `__v`. */
  datatype Record = Record(
    id: nat,
    name: string,
    email: string,
    subject: string,
    message: string,
    ipAddress: string,
    userAgent: string,
    timestamp: int,
    status: Status,
    isSpam: bool,
    version: nat)

  /** The values a handler passes to `new Contact({...})`. */
  datatype Draft = Draft(name: string, email: string, subject: string, message: string, ipAddress: string, userAgent: string)

  /** `validator.isEmail` and `validator.isIP`, which this model does not interpret. */
  datatype Checkers = Checkers(isEmail: string -> bool, isIP: string -> bool)

  const NameMin := 2
  const NameMax := 100
  const EmailMax := 254
  const SubjectMin := 5
  const SubjectMax := 200
  const MessageMin := 10
  const MessageMax := 1000
  const UserAgentMax := 500

  /** The schema's setters: `trim` on the four text paths and `lowercase` on the address. */
  function Cast(d: Draft): (c: Draft)
    ensures IsTrimmed(c.name) && IsTrimmed(c.subject) && IsTrimmed(c.message)
    ensures IsTrimmed(c.email) && ToLower(c.email) == c.email
    ensures c.ipAddress == d.ipAddress && c.userAgent == d.userAgent
  {
    var e := Trim(d.email);
    ToLowerKeepsTrimmed(e);
    ToLowerIdempotent(e);
    Draft(Trim(d.name), ToLower(e), Trim(d.subject), Trim(d.message), d.ipAddress, d.userAgent)
  }

  /** Casting an already cast draft changes nothing. */
  lemma CastIdempotent(d: Draft)
    ensures Cast(Cast(d)) == Cast(d)
  {
    var c := Cast(d);
    TrimOfTrimmed(c.name);
    TrimOfTrimmed(c.subject);
    TrimOfTrimmed(c.message);
    TrimOfTrimmed(c.email);
  }

  /** The first failing constraint of a path, in declaration order, as an error message. */
  function NameError(v: string): Option<string> {
    if v == "" then Some("Name is required")
    else if |v| < NameMin then Some("Name must be at least 2 characters long")
    else if |v| > NameMax then Some("Name cannot exceed 100 characters")
    else if !MatchesNamePattern(v) then Some("Name can only contain letters, spaces, hyphens, and apostrophes")
    else None
  }

  function EmailError(v: string, isEmail: string -> bool): Option<string> {
    if v == "" then Some("Email is required")
    else if |v| > EmailMax then Some("Email cannot exceed 254 characters")
    else if !isEmail(v) then Some("Please provide a valid email address")
    else None
  }

  function SubjectError(v: string): Option<string> {
    if v == "" then Some("Subject is required")
    else if |v| < SubjectMin then Some("Subject must be at least 5 characters long")
    else if |v| > SubjectMax then Some("Subject cannot exceed 200 characters")
    else None
  }

  function MessageError(v: string): Option<string> {
    if v == "" then Some("Message is required")
    else if |v| < MessageMin then Some("Message must be at least 10 characters long")
    else if |v| > MessageMax then Some("Message cannot exceed 1000 characters")
    else None
  }

  function IpError(v: string, isIP: string -> bool): Option<string> {
    if v == "" then Some("Path `ipAddress` is required.")
    else if !isIP(v) then Some("Invalid IP address format")
    else None
  }

  function UserAgentError(v: string): Option<string> {
    if v == "" then Some("Path `userAgent` is required.")
    else if |v| > UserAgentMax then Some("User agent string too long")
    else None
  }

  function ErrorEntry(path: string, value: string, e: Option<string>): seq<FieldError> {
    if e.Some? then [FieldError(path, e.value, value)] else []
  }

  /** Every declared constraint holds of a cast draft. */
  ghost predicate SatisfiesSchema(c: Draft, ck: Checkers) {
    && 2 <= |c.name| <= 100 && MatchesNamePattern(c.name)
    && 0 < |c.email| <= 254 && ck.isEmail(c.email)
    && 5 <= |c.subject| <= 200
    && 10 <= |c.message| <= 1000
    && c.ipAddress != "" && ck.isIP(c.ipAddress)
    && 0 < |c.userAgent| <= 500
  }

  /** Schema validation: one error per failing path, in the schema's path order. */
  function Validate(c: Draft, ck: Checkers): (errs: seq<FieldError>)
    ensures errs == [] <==> SatisfiesSchema(c, ck)
    ensures |errs| <= 6
  {
    ErrorEntry("name", c.name, NameError(c.name))
    + ErrorEntry("email", c.email, EmailError(c.email, ck.isEmail))
    + ErrorEntry("subject", c.subject, SubjectError(c.subject))
    + ErrorEntry("message", c.message, MessageError(c.message))
    + ErrorEntry("ipAddress", c.ipAddress, IpError(c.ipAddress, ck.isIP))
    + ErrorEntry("userAgent", c.userAgent, UserAgentError(c.userAgent))
  }

  /**
    The two assignments the pre-save hook makes to one text field. Each assignment runs the
    path's `trim` setter again, so the stored value is trimmed after each step.
   */
  function Sanitise(s: string): (r: string)
    ensures NoTag(r) && IsTrimmed(r)
    ensures |r| <= |s|
  {
    var collapsed := Trim(CollapseSpaces(s));
    var stripped := StripTags(collapsed);
    TrimKeepsTagFree(stripped);
    Trim(stripped)
  }

  /** A field that is already trimmed, collapsed and tag-free comes through the hook unchanged. */
  lemma SanitiseFixesClean(s: string)
    requires IsTrimmed(s) && NoDoubleSpace(s) && OnlyBlanks(s) && NoTag(s)
    ensures Sanitise(s) == s
  {
    CollapseFixesCollapsed(s);
    TrimOfTrimmed(s);
    StripFixesTagFree(s);
  }

  /** A space-free tag `<x>` is removed whole. */
  lemma TagRemoved(x: string)
    requires '>' !in x
    ensures StripTags(['<'] + x + ['>']) == []
  {
    var t := ['<'] + x + ['>'];
    assert forall i :: 1 <= i < |t| - 1 ==> t[i] == x[i - 1] && t[i] != '>';
    assert t[|t| - 1] == '>';
    var close := IndexOf(t, '>', 1);
    assert close != -1 && close >= |t| - 1;
    assert t[|t|..] == [];
  }

  /**
    A tag after the last word goes together with the blank before it: the strip step leaves
    that blank at the end, and the setter run by the second assignment trims it off.
   */
  lemma TrailingTagDropped(w: string, x: string)
    requires |w| > 0 && IsTrimmed(w) && NoDoubleSpace(w) && OnlyBlanks(w) && '<' !in w
    requires '>' !in x && forall i :: 0 <= i < |x| ==> !IsSpace(x[i])
    ensures Trim(w + [' '] + (['<'] + x + ['>'])) == w + [' '] + (['<'] + x + ['>'])
    ensures Sanitise(w + [' '] + (['<'] + x + ['>'])) == w
  {
    var p := w + [' '];
    var tag := ['<'] + x + ['>'];
    var s := p + tag;
    assert w + [' '] + tag == s;
    assert forall i :: 0 <= i < |w| ==> s[i] == w[i];
    assert forall i :: 0 <= i < |x| ==> s[|w| + 2 + i] == x[i];
    assert s[|w|] == ' ' && s[|w| + 1] == '<' && s[|s| - 1] == '>';
    assert NoDoubleSpace(s);
    assert OnlyBlanks(s);
    assert IsTrimmed(s);
    CollapseFixesCollapsed(s);
    TrimOfTrimmed(s);
    assert '<' !in p;
    StripPlainPrefix(p, tag);
    TagRemoved(x);
    assert p + [] == p;
    TrimDropsTrailingSpace(w, ' ');
  }

  /** The pre-save hook: rewrites name, subject and message, and nothing else. */
  function PreSave(r: Record): (r': Record)
    ensures r'.name == Sanitise(r.name) && r'.subject == Sanitise(r.subject) && r'.message == Sanitise(r.message)
    ensures r' == r.(name := r'.name, subject := r'.subject, message := r'.message)
  {
    r.(name := Sanitise(r.name), subject := Sanitise(r.subject), message := Sanitise(r.message))
  }

  /** The outcome of `save()`. */
  datatype SaveResult = Saved(record: Record) | SaveFailed(error: Thrown)

  /**
    `new Contact(d).save()` against `store` at time `now`: setters, then validation, then the
    pre-save hook. `fault` is an error the database raises on insert, if any. The new document's
    id is the store size, which no earlier document holds.
   */
  function Save(store: seq<Record>, d: Draft, now: int, ck: Checkers, fault: Option<Thrown>): (res: SaveResult)
    ensures res.Saved? <==> SatisfiesSchema(Cast(d), ck) && fault.None?
    ensures res.Saved? ==> res.record == PreSave(Record(|store|, Cast(d).name, Cast(d).email, Cast(d).subject,
      Cast(d).message, d.ipAddress, d.userAgent, now, New, false, 0))
    ensures res.SaveFailed? && !SatisfiesSchema(Cast(d), ck) ==>
      IsValidationError(res.error) && res.error.fieldErrors == Validate(Cast(d), ck) && res.error.fieldErrors != []
    ensures res.SaveFailed? && SatisfiesSchema(Cast(d), ck) ==> res.error == fault.value
  {
    var c := Cast(d);
    var errs := Validate(c, ck);
    if errs != [] then SaveFailed(Thrown("ValidationError", "Contact validation failed", errs))
    else if fault.Some? then SaveFailed(fault.value)
    else Saved(PreSave(Record(|store|, c.name, c.email, c.subject, c.message, c.ipAddress, c.userAgent, now, New, false, 0)))
  }

  /** Each stored document's `_id` is its insertion position, so no two share one. */
  ghost predicate IdsArePositions(store: seq<Record>) {
    forall i :: 0 <= i < |store| ==> store[i].id == i
  }

  /**
    A freshly saved document has the schema defaults: status `new`, not spam, version 0, stamped
    `now`; its id is the next position, so ids stay distinct.
   */
  lemma SaveDefaults(store: seq<Record>, d: Draft, now: int, ck: Checkers, fault: Option<Thrown>)
    requires Save(store, d, now, ck, fault).Saved?
    ensures var r := Save(store, d, now, ck, fault).record;
      r.status == New && StatusName(r.status) == "new" && !r.isSpam && r.version == 0 && r.timestamp == now
      && r.ipAddress == d.ipAddress && r.userAgent == d.userAgent
      && r.id == |store|
      && (IdsArePositions(store) ==> IdsArePositions(store + [r]))
  {
    var r := Save(store, d, now, ck, fault).record;
    if IdsArePositions(store) {
      forall i | 0 <= i < |store| + 1
        ensures (store + [r])[i].id == i
      {
        if i < |store| {
          assert (store + [r])[i] == store[i];
        }
      }
    }
  }

  // ---------------------------------------------------------------------------
  // Store queries.

  predicate IsRecentFrom(r: Record, ip: string, since: int) {
    r.ipAddress == ip && r.timestamp >= since
  }

  /** `getRecentSubmissionsCount(ip, window)` at time `now`. */
  function RecentSubmissionsCount(store: seq<Record>, ip: string, window: int, now: int): (n: nat)
    ensures n <= |store|
    ensures n == 0 <==> forall i :: 0 <= i < |store| ==> !IsRecentFrom(store[i], ip, now - window)
  {
    CountWhere(store, (r: Record) => IsRecentFrom(r, ip, now - window))
  }

  /** The positions of the store that hold a record from `ip` stamped at or after `since`. */
  ghost function RecentPositions(store: seq<Record>, ip: string, since: int): set<int> {
    set i | 0 <= i < |store| && IsRecentFrom(store[i], ip, since)
  }

  /** The count is exactly the number of stored positions holding a record from `ip` no older than the window. */
  lemma RecentCountIsExact(store: seq<Record>, ip: string, window: int, now: int)
    ensures RecentSubmissionsCount(store, ip, window, now) == |RecentPositions(store, ip, now - window)|
  {
    var p := (r: Record) => IsRecentFrom(r, ip, now - window);
    assert RecentSubmissionsCount(store, ip, window, now) == CountWhere(store, p);
    CountWhereIsIndexCount(store, p);
    assert PositionsWhere(store, p) == RecentPositions(store, ip, now - window);
  }

  /** A wider window never counts fewer submissions. */
  lemma RecentCountMonotone(store: seq<Record>, ip: string, w1: int, w2: int, now: int)
    requires w1 <= w2
    ensures RecentSubmissionsCount(store, ip, w1, now) <= RecentSubmissionsCount(store, ip, w2, now)
  {
    CountWhereMono(store, (r: Record) => IsRecentFrom(r, ip, now - w1), (r: Record) => IsRecentFrom(r, ip, now - w2));
  }

  /** Appending a record adds one to the count exactly when that record is from `ip` and inside the window. */
  lemma RecentCountAppend(store: seq<Record>, r: Record, ip: string, window: int, now: int)
    ensures RecentSubmissionsCount(store + [r], ip, window, now)
      == RecentSubmissionsCount(store, ip, window, now) + (if IsRecentFrom(r, ip, now - window) then 1 else 0)
  {
    CountWhereAppend(store, r, (x: Record) => IsRecentFrom(x, ip, now - window));
  }

  predicate IsDuplicateOf(r: Record, email: string, message: string, since: int) {
    r.email == email && r.message == message && r.timestamp >= since
  }

  /** `checkForDuplicates(email, message, window)` at time `now`: the first matching record, if any. */
  function CheckForDuplicates(store: seq<Record>, email: string, message: string, window: int, now: int): (r: Option<Record>)
    ensures r.Some? <==> exists i :: 0 <= i < |store| && IsDuplicateOf(store[i], email, message, now - window)
    ensures r.Some? ==> r.value in store && IsDuplicateOf(r.value, email, message, now - window)
  {
    if |store| == 0 then None
    else if IsDuplicateOf(store[0], email, message, now - window) then Some(store[0])
    else
      var rest := CheckForDuplicates(store[1..], email, message, window, now);
      assert forall i :: 1 <= i < |store| ==> store[i] == store[1..][i - 1];
      rest
  }

  /** What `toSafeObject` leaves: every field but `ipAddress`, `userAgent` and `__v`. */
  datatype SafeRecord = SafeRecord(
    id: nat,
    name: string,
    email: string,
    subject: string,
    message: string,
    timestamp: int,
    status: Status,
    isSpam: bool)

  function ToSafeObject(r: Record): (s: SafeRecord)
    ensures s.id == r.id && s.name == r.name && s.email == r.email && s.subject == r.subject
    ensures s.message == r.message && s.timestamp == r.timestamp && s.status == r.status && s.isSpam == r.isSpam
  {
    SafeRecord(r.id, r.name, r.email, r.subject, r.message, r.timestamp, r.status, r.isSpam)
  }

  /** The safe object depends on nothing that was removed: records differing only there look the same. */
  lemma SafeObjectForgetsTracking(r: Record, ip: string, ua: string, v: nat)
    ensures ToSafeObject(r.(ipAddress := ip, userAgent := ua, version := v)) == ToSafeObject(r)
  {
  }

  /** Two records with the same safe object differ at most in the removed fields. */
  lemma SafeObjectKeepsTheRest(r1: Record, r2: Record)
    requires ToSafeObject(r1) == ToSafeObject(r2)
    ensures r1.(ipAddress := r2.ipAddress, userAgent := r2.userAgent, version := r2.version) == r2
  {
  }
}
