/**
  The browser's API client: the base-URL normalisation and the envelopes the four calls resolve
  to. The HTTP round trip is a parameter: a `Reply` says whether the server answered with a
  success status, answered with an error status, did not answer, or the request never left.
 */
module ContactClient {
  import opened Base
  import opened Envelope

  /** `.replace(/\/$/, '')`: one trailing slash, if there is one, is dropped. */
  function DropTrailingSlash(u: string): (r: string)
    ensures |u| - 1 <= |r| <= |u| && r == u[..|r|]
  {
    if |u| > 0 && u[|u| - 1] == '/' then u[..|u| - 1] else u
  }

  /** `(VITE_API_URL || 'http://localhost:5000')` without its trailing slash. */
  function BaseUrl(apiUrl: Option<string>): (r: string)
    ensures apiUrl.None? || apiUrl.value == [] ==> r == "http://localhost:5000"
  {
    var u := if apiUrl.Some? && apiUrl.value != [] then apiUrl.value else "http://localhost:5000";
    DropTrailingSlash(u)
  }

  /** A written-out slash is dropped again, and a URL not ending in one is left alone. */
  lemma DropTrailingSlashRoundTrip(u: string)
    ensures DropTrailingSlash(u + "/") == u
    ensures (|u| == 0 || u[|u| - 1] != '/') ==> DropTrailingSlash(u) == u
  {
  }

  /** Only one slash goes: a URL ending in two keeps one. */
  lemma OnlyOneSlashDropped(u: string)
    ensures DropTrailingSlash(u + "//") == u + "/"
  {
    assert (u + "//")[..|u| + 1] == u + "/";
  }

  // ---------------------------------------------------------------------------
  // Replies as the client sees them

  /** An error body's `details`: an array of field details or a string. */
  datatype ClientDetails = DetailArray(items: seq<Detail>) | DetailString(text: string)

  /** `data.error` of an error reply, each part possibly missing. */
  datatype ErrorPart = ErrorPart(message: Option<string>, code: Option<string>, details: Option<ClientDetails>)

  datatype Reply =
    | HttpOk(message: Option<string>)
    | HttpError(status: nat, error: Option<ErrorPart>)
    | NoResponse
    | SetupFailed

  /** What the server's JSON looks like on the wire: errors carry their parts, details as they were sent. */
  function Transmit(r: Response): (reply: Reply)
    ensures r.Failed? <==> reply.HttpError?
  {
    match r
    case NoBody(_) => HttpOk(None)
    case Created(m, _) => HttpOk(Some(m))
    case Failed(s, m, c, d) =>
      HttpError(s, Some(ErrorPart(Some(m), Some(c),
        match d
        case NoDetails => None
        case DetailList(items) => Some(DetailArray(items))
        case DetailText(t) => Some(DetailString(t)))))
  }

  /** The envelope `submitContactForm` and `sendTestEmail` resolve to; `details` is absent from the last two cases. */
  datatype SubmitResult =
    | Submitted(message: string)
    | SubmitFailed(status: Option<nat>, message: string, code: string, details: Option<ClientDetails>)

  const NetworkMessage := "Network error. Please check your connection and try again."
  const UnexpectedClientMessage := "An unexpected error occurred. Please try again."

  /** JavaScript `a || b` on an optional string. */
  function OrElse(v: Option<string>, fallback: string): (r: string)
    ensures v.Some? && v.value != [] ==> r == v.value
    ensures v.None? || v.value == [] ==> r == fallback
  {
    if v.Some? && v.value != [] then v.value else fallback
  }

  /** `data.error?.details || []`: an absent or empty-string `details` becomes an empty array. */
  function DetailsOrEmpty(d: Option<ClientDetails>): (r: ClientDetails)
    ensures d.Some? && !(d.value.DetailString? && d.value.text == []) ==> r == d.value
    ensures d.None? || (d.value.DetailString? && d.value.text == []) ==> r == DetailArray([])
  {
    if d.Some? && !(d.value.DetailString? && d.value.text == []) then d.value else DetailArray([])
  }

  /** The three-way error split shared by the two posting calls. */
  function FailureEnvelope(reply: Reply, defaultMessage: string, withDetails: bool): (r: SubmitResult)
    requires !reply.HttpOk?
    ensures r.SubmitFailed? && r.code != []
    ensures r.details.Some? <==> withDetails && reply.HttpError?
    ensures r.status.Some? <==> reply.HttpError?
  {
    match reply
    case HttpError(s, e) =>
      var part := if e.Some? then e.value else ErrorPart(None, None, None);
      SubmitFailed(Some(s), OrElse(part.message, defaultMessage), OrElse(part.code, "UNKNOWN_ERROR"),
                   if withDetails then Some(DetailsOrEmpty(part.details)) else None)
    case NoResponse => SubmitFailed(None, NetworkMessage, "NETWORK_ERROR", None)
    case SetupFailed => SubmitFailed(None, UnexpectedClientMessage, "UNKNOWN_ERROR", None)
  }

  /** `submitContactForm`: never rejects; every outcome is an envelope. */
  function SubmitContactForm(reply: Reply): (r: SubmitResult)
    ensures r.Submitted? <==> reply.HttpOk?
    ensures reply.HttpOk? ==> r.message == OrElse(reply.message, "Message sent successfully!")
    ensures reply.NoResponse? ==> r == SubmitFailed(None, NetworkMessage, "NETWORK_ERROR", None)
    ensures reply.SetupFailed? ==> r.code == "UNKNOWN_ERROR"
    ensures reply.HttpError? ==> r.status == Some(reply.status) && r.details.Some?
  {
    if reply.HttpOk? then Submitted(OrElse(reply.message, "Message sent successfully!"))
    else FailureEnvelope(reply, "Failed to send message", true)
  }

  /** `sendTestEmail`: the same split, its own defaults, and never a `details` member. */
  function SendTestEmail(reply: Reply): (r: SubmitResult)
    ensures r.Submitted? <==> reply.HttpOk?
    ensures reply.HttpOk? ==> r.message == OrElse(reply.message, "Test email sent successfully!")
    ensures r.SubmitFailed? ==> r.details.None?
    ensures reply.HttpError? ==> r.status == Some(reply.status)
  {
    if reply.HttpOk? then Submitted(OrElse(reply.message, "Test email sent successfully!"))
    else FailureEnvelope(reply, "Failed to send test email", false)
  }

  /** The two posting calls agree on every failure except that only form submission carries details. */
  lemma PostingCallsAgree(reply: Reply)
    requires !reply.HttpOk?
    ensures var a := SubmitContactForm(reply);
      var b := SendTestEmail(reply);
      a.status == b.status && a.code == b.code
      && (reply.HttpError? && reply.error.Some? && reply.error.value.message.Some? && reply.error.value.message.value != []
          ==> a.message == b.message)
  {
  }

  /**
    A server error reaches the form with its status, message and code intact; a missing
    `details` arrives as an empty array.
   */
  lemma ServerErrorsSurvive(r: Response)
    requires r.Failed? && r.message != [] && r.code != []
    ensures var c := SubmitContactForm(Transmit(r));
      c == SubmitFailed(Some(r.status), r.message, r.code,
        Some(match r.details
             case NoDetails => DetailArray([])
             case DetailList(items) => DetailArray(items)
             case DetailText(t) => if t == [] then DetailArray([]) else DetailString(t)))
  {
  }

  /** A 201 reaches the form as success with the server's own message. */
  lemma AcceptanceSurvives(m: string, data: SubmissionData)
    requires m != []
    ensures SubmitContactForm(Transmit(Created(m, data))) == Submitted(m)
  {
  }

  // ---------------------------------------------------------------------------
  // The two read-only calls

  datatype FetchResult<T> = Fetched(data: T) | FetchFailed(message: string, code: string)

  /** `getContactStats` and `checkEmailStatus`: any failure at all becomes one fixed envelope. */
  function FetchOrFixed<T>(got: Option<T>, message: string, code: string): (r: FetchResult<T>)
    ensures got.Some? ==> r == Fetched(got.value)
    ensures got.None? ==> r == FetchFailed(message, code)
  {
    if got.Some? then Fetched(got.value) else FetchFailed(message, code)
  }

  function GetContactStats<T>(got: Option<T>): (r: FetchResult<T>)
    ensures r.FetchFailed? <==> got.None?
    ensures r.FetchFailed? ==> r.code == "STATS_ERROR" && r.message == "Failed to fetch statistics"
    ensures got.Some? ==> r == Fetched(got.value)
  {
    FetchOrFixed(got, "Failed to fetch statistics", "STATS_ERROR")
  }

  function CheckEmailStatus<T>(got: Option<T>): (r: FetchResult<T>)
    ensures r.FetchFailed? <==> got.None?
    ensures r.FetchFailed? ==> r.code == "EMAIL_STATUS_ERROR" && r.message == "Failed to check email service status"
    ensures got.Some? ==> r == Fetched(got.value)
  {
    FetchOrFixed(got, "Failed to check email service status", "EMAIL_STATUS_ERROR")
  }
}
