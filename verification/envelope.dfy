/** The JSON envelopes the backend answers with, and the error values handlers catch. */
module Envelope {
  import opened Base

  /** One element of an error's `details` array. */
  datatype Detail = Detail(field: string, message: string, value: Option<string>)

  /** An error's `details` member: absent, an array of field details, or a plain string. */
  datatype Details = NoDetails | DetailList(items: seq<Detail>) | DetailText(text: string)

  /** One path's entry in a mongoose `ValidationError`'s `errors` object. */
  datatype FieldError = FieldError(path: string, message: string, value: string)

  /** A thrown JavaScript error: its `name`, its `message`, and for a validation error the per-path errors. */
  datatype Thrown = Thrown(name: string, message: string, fieldErrors: seq<FieldError>)

  /** The `data` of a 201 answer. */
  datatype SubmissionData = SubmissionData(id: nat, timestamp: int, status: string)

  /** An HTTP answer of a contact handler. */
  datatype Response =
    | NoBody(status: nat)
    | Created(message: string, data: SubmissionData)
    | Failed(status: nat, message: string, code: string, details: Details)
  {
    function Status(): nat {
      match this
      case NoBody(s) => s
      case Created(_, _) => 201
      case Failed(s, _, _, _) => s
    }

    predicate HasCode(c: string) {
      Failed? && code == c
    }
  }

  const AcceptedMessage := "Thank you for your message! I will get back to you soon."
  const RateLimitMessage := "Too many submissions from this IP address. Please try again later."
  const DuplicateMessage := "Duplicate submission detected. Please wait before submitting again."
  const DatabaseSaveMessage := "Database error occurred while saving your message. Please try again."
  const UnexpectedMessage := "An unexpected error occurred. Please try again later."

  predicate IsValidationError(e: Thrown) {
    e.name == "ValidationError"
  }

  predicate IsDatabaseError(e: Thrown) {
    e.name == "MongoError" || e.name == "MongooseError"
  }

  /** `Object.values(error.errors).map(err => ({field: err.path, message: err.message, value: err.value}))`. */
  function FieldErrorDetails(errs: seq<FieldError>): (ds: seq<Detail>)
    ensures |ds| == |errs|
    ensures forall i :: 0 <= i < |errs| ==>
      ds[i] == Detail(errs[i].path, errs[i].message, Some(errs[i].value))
  {
    if |errs| == 0 then []
    else [Detail(errs[0].path, errs[0].message, Some(errs[0].value))] + FieldErrorDetails(errs[1..])
  }

  /** Reads the per-path errors back out of the details: nothing is lost or reordered. */
  function DetailFieldErrors(ds: seq<Detail>): (errs: seq<FieldError>)
    ensures |errs| == |ds|
  {
    if |ds| == 0 then []
    else [FieldError(ds[0].field, ds[0].message, ds[0].value.GetOr(""))] + DetailFieldErrors(ds[1..])
  }

  lemma {:induction false} FieldErrorDetailsRoundTrip(errs: seq<FieldError>)
    ensures DetailFieldErrors(FieldErrorDetails(errs)) == errs
    decreases |errs|
  {
    if |errs| > 0 {
      FieldErrorDetailsRoundTrip(errs[1..]);
      assert FieldErrorDetails(errs)[1..] == FieldErrorDetails(errs[1..]);
    }
  }
}
