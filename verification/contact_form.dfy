/**
  The contact form's state logic: the per-field validator, whole-form validation, the update on
  every keystroke, and what a submission does to the form. Field values and errors are maps from
  the input's name, as the component keeps them in objects; an error set to `undefined` is
  modelled as an absent key, which is how the form renders it.
 */
module ContactForm {
  import opened Base
  import opened Text
  import opened Envelope
  import opened ContactClient

  const Fields := ["name", "email", "subject", "message"]

  /** The one message the field's first failing check gives, if any; checks run on the trimmed value. */
  function FieldMessage(field: string, value: string): (m: Option<string>)
    ensures field !in Fields ==> m.None?
    ensures field in Fields && Trim(value) == [] ==> m.Some?
  {
    var v := Trim(value);
    if field == "name" then
      if v == [] then Some("Name is required")
      else if |v| < 2 then Some("Name must be at least 2 characters")
      else if |v| > 100 then Some("Name cannot exceed 100 characters")
      else if !MatchesNamePattern(v) then Some("Name can only contain letters, spaces, hyphens, and apostrophes")
      else None
    else if field == "email" then
      if v == [] then Some("Email is required")
      else if !MatchesEmailPattern(v) then Some("Please enter a valid email address")
      else if |v| > 254 then Some("Email cannot exceed 254 characters")
      else None
    else if field == "subject" then
      if v == [] then Some("Subject is required")
      else if |v| < 5 then Some("Subject must be at least 5 characters")
      else if |v| > 200 then Some("Subject cannot exceed 200 characters")
      else None
    else if field == "message" then
      if v == [] then Some("Message is required")
      else if |v| < 10 then Some("Message must be at least 10 characters")
      else if |v| > 1000 then Some("Message cannot exceed 1000 characters")
      else None
    else None
  }

  /** `validateField`: an object with at most one entry, under the field's own name. */
  function ValidateField(field: string, value: string): (errs: map<string, string>)
    ensures errs.Keys <= {field}
    ensures field !in Fields ==> errs == map[]
  {
    var m := FieldMessage(field, value);
    if m.Some? then map[field := m.value] else map[]
  }

  /** What each field requires of its trimmed value, stated without the order of the checks. */
  ghost predicate FieldAcceptable(field: string, value: string) {
    var v := Trim(value);
    && (field == "name" ==> 2 <= |v| <= 100 && MatchesNamePattern(v))
    && (field == "email" ==> EmailShape(v) && |v| <= 254)
    && (field == "subject" ==> 5 <= |v| <= 200)
    && (field == "message" ==> 10 <= |v| <= 1000)
  }

  /** The validator finds nothing exactly when the trimmed value meets every requirement. */
  lemma ValidateFieldExact(field: string, value: string)
    ensures ValidateField(field, value) == map[] <==> FieldAcceptable(field, value)
  {
    if FieldMessage(field, value).Some? {
      assert field in ValidateField(field, value);
    }
    FieldMessageExact(field, value);
  }

  /** The check sequence passes exactly when the trimmed value meets every requirement. */
  lemma FieldMessageExact(field: string, value: string)
    ensures FieldMessage(field, value).None? <==> FieldAcceptable(field, value)
  {
    if Trim(value) == [] {
      assert !MatchesEmailPattern(Trim(value));
    }
  }

  /** A whitespace-only value is reported as missing, not as too short. */
  lemma BlankIsRequired(field: string, value: string)
    requires field in Fields && IsBlank(value)
    ensures ValidateField(field, value)[field] == if field == "name" then "Name is required"
      else if field == "email" then "Email is required"
      else if field == "subject" then "Subject is required"
      else "Message is required"
  {
    assert Trim(value) == [] by {
      BlankTrimsToEmpty(value);
    }
  }

  lemma BlankTrimsToEmpty(s: string)
    requires IsBlank(s)
    ensures Trim(s) == []
  {
  }

  /** The first failing check wins: a one-letter name is too short, whatever else is wrong with it. */
  lemma OneLetterNameTooShort(value: string)
    requires value == "A"
    ensures ValidateField("name", value) == map["name" := "Name must be at least 2 characters"]
  {
    assert IsTrimmed(value);
    TrimOfTrimmed(value);
  }

  // ---------------------------------------------------------------------------
  // The whole form

  /** `validateForm`'s error object: every field's own entry, merged. */
  function FormErrors(data: map<string, string>): (errs: map<string, string>)
    ensures errs.Keys <= data.Keys
    ensures forall f :: f in errs ==> f in Fields
  {
    map f | f in data && FieldMessage(f, data[f]).Some? :: FieldMessage(f, data[f]).value
  }

  /** `validateForm`: the merged errors, and whether there are none. */
  function ValidateForm(data: map<string, string>): (res: (map<string, string>, bool))
    ensures res.1 <==> res.0 == map[]
  {
    var errs := FormErrors(data);
    (errs, errs == map[])
  }

  /** The form is valid exactly when each field's own validator finds nothing, and the merged map holds each field's entry. */
  lemma ValidateFormIsUnion(data: map<string, string>)
    ensures ValidateForm(data).1 <==> forall f :: f in data ==> ValidateField(f, data[f]) == map[]
    ensures forall f :: f in data && f in ValidateField(f, data[f]) ==>
      f in ValidateForm(data).0 && ValidateForm(data).0[f] == ValidateField(f, data[f])[f]
  {
    var errs := FormErrors(data);
    if errs == map[] {
      forall f | f in data
        ensures ValidateField(f, data[f]) == map[]
      {
        assert f !in errs;
      }
    }
  }

  // ---------------------------------------------------------------------------
  // Component state

  datatype SubmitStatus = Success | Error

  datatype FormState = FormState(
    data: map<string, string>, errors: map<string, string>,
    status: Option<SubmitStatus>, message: string, submitting: bool)

  const EmptyData := map["name" := "", "email" := "", "subject" := "", "message" := ""]

  const Initial := FormState(EmptyData, map[], None, "", false)

  /** `handleInputChange`: store the value, clear a shown status, and re-validate the edited field alone. */
  function HandleInputChange(s: FormState, field: string, value: string): (r: FormState)
    ensures r.data == s.data[field := value] && r.submitting == s.submitting
    ensures s.status.Some? ==> r.status.None? && r.message == ""
    ensures s.status.None? ==> r.status == s.status && r.message == s.message
    ensures forall f :: f != field ==> (f in r.errors <==> f in s.errors)
    ensures forall f :: f != field && f in s.errors ==> r.errors[f] == s.errors[f]
    ensures field in r.errors <==> ValidateField(field, value) != map[]
    ensures field in r.errors ==> r.errors[field] == ValidateField(field, value)[field]
  {
    var errs := ValidateField(field, value);
    var status := if s.status.Some? then None else s.status;
    var message := if s.status.Some? then "" else s.message;
    var errors := if errs == map[] then s.errors - {field} else s.errors + errs;
    FormState(s.data[field := value], errors, status, message, s.submitting)
  }

  /** Typing a value the validator accepts removes that field's error. */
  lemma ValidInputClearsError(s: FormState, field: string, value: string)
    requires FieldAcceptable(field, value)
    ensures field !in HandleInputChange(s, field, value).errors
  {
    ValidateFieldExact(field, value);
  }

  const FixAboveMessage := "Please fix the errors above and try again."
  const FixMessage := "Please fix the errors and try again."

  /**
    A server error's `details` array as a field-to-message object, one detail after another,
    so a later detail for the same field overwrites an earlier one.
   */
  function DetailsToErrors(ds: seq<Detail>): (m: map<string, string>)
    ensures m.Keys == set i | 0 <= i < |ds| :: ds[i].field
  {
    if |ds| == 0 then map[]
    else
      var m := DetailsToErrors(ds[..|ds| - 1]);
      assert forall i :: 0 <= i < |ds| - 1 ==> ds[..|ds| - 1][i] == ds[i];
      m[ds[|ds| - 1].field := ds[|ds| - 1].message]
  }

  /** Every field ends up with the message of its last detail. */
  lemma {:induction false} LastDetailWins(ds: seq<Detail>, i: nat)
    requires i < |ds|
    requires forall j :: i < j < |ds| ==> ds[j].field != ds[i].field
    ensures ds[i].field in DetailsToErrors(ds) && DetailsToErrors(ds)[ds[i].field] == ds[i].message
    decreases |ds|
  {
    if i < |ds| - 1 {
      LastDetailWins(ds[..|ds| - 1], i);
    }
  }

  /** What `handleSubmit` does once validation has passed and the client call has answered. */
  function AfterReply(s: FormState, result: SubmitResult): (r: FormState)
    ensures !r.submitting
    ensures result.Submitted? ==> r == FormState(EmptyData, map[], Some(Success), result.message, false)
    ensures result.SubmitFailed? ==> r.status == Some(Error) && r.data == s.data
  {
    match result
    case Submitted(m) => FormState(EmptyData, map[], Some(Success), m, false)
    case SubmitFailed(_, m, _, d) =>
      if d.Some? && d.value.DetailArray? then
        s.(errors := DetailsToErrors(d.value.items), status := Some(Error), message := FixMessage, submitting := false)
      else s.(status := Some(Error), message := m, submitting := false)
  }

  /**
    `handleSubmit` with the HTTP round trip given as `reply`. An invalid form is never sent; the
    second result is whether the client call was made.
   */
  function HandleSubmit(s: FormState, reply: Reply): (res: (FormState, bool))
    ensures res.1 <==> ValidateForm(s.data).1
    ensures !res.1 ==> res.0 == s.(errors := FormErrors(s.data), status := Some(Error), message := FixAboveMessage)
    ensures res.1 ==> res.0 == AfterReply(s.(errors := map[], status := None, message := "", submitting := true),
                                          SubmitContactForm(reply))
  {
    var (errs, ok) := ValidateForm(s.data);
    if !ok then (s.(errors := errs, status := Some(Error), message := FixAboveMessage), false)
    else
      var sending := s.(errors := errs, status := None, message := "", submitting := true);
      (AfterReply(sending, SubmitContactForm(reply)), true)
  }

  /** A successful submission empties all four fields and every error. */
  lemma SuccessResetsForm(s: FormState, reply: Reply)
    requires ValidateForm(s.data).1 && reply.HttpOk?
    ensures HandleSubmit(s, reply).0.data == EmptyData && HandleSubmit(s, reply).0.errors == map[]
  {
  }

  // ---------------------------------------------------------------------------
  // Finding: a server error without details hides the server's message.

  /**
    As written, the rate-limit answer reaches the form with an empty `details` array, which
    passes the array test: the field errors are wiped and the generic "fix the errors" text
    replaces the server's explanation.
   */
  lemma RateLimitMessageHidden(s: FormState, r: Response)
    requires ValidateForm(s.data).1 && r == Failed(429, RateLimitMessage, "IP_RATE_LIMIT_EXCEEDED", NoDetails)
    ensures var after := HandleSubmit(s, Transmit(r)).0;
      after.message == FixMessage && after.message != RateLimitMessage && after.errors == map[]
  {
  }

  /** The intended handling: only a non-empty details array is read as field errors. */
  function AfterReplyIntended(s: FormState, result: SubmitResult): (r: FormState)
    ensures !r.submitting
    ensures result.Submitted? ==> r == FormState(EmptyData, map[], Some(Success), result.message, false)
    ensures result.SubmitFailed? && !(result.details.Some? && result.details.value.DetailArray? && result.details.value.items != []) ==>
      r == s.(status := Some(Error), message := result.message, submitting := false)
  {
    match result
    case Submitted(m) => FormState(EmptyData, map[], Some(Success), m, false)
    case SubmitFailed(_, m, _, d) =>
      if d.Some? && d.value.DetailArray? && d.value.items != [] then
        s.(errors := DetailsToErrors(d.value.items), status := Some(Error), message := FixMessage, submitting := false)
      else s.(status := Some(Error), message := m, submitting := false)
  }

  function HandleSubmitIntended(s: FormState, reply: Reply): (res: (FormState, bool))
    ensures res.1 <==> ValidateForm(s.data).1
  {
    var (errs, ok) := ValidateForm(s.data);
    if !ok then (s.(errors := errs, status := Some(Error), message := FixAboveMessage), false)
    else
      var sending := s.(errors := errs, status := None, message := "", submitting := true);
      (AfterReplyIntended(sending, SubmitContactForm(reply)), true)
  }

  /**
    With the correction, every server error that carries no field details shows the server's own
    message, and one that carries them still fills the field errors.
   */
  lemma ServerMessageShown(s: FormState, r: Response)
    requires ValidateForm(s.data).1 && r.Failed? && r.message != [] && r.code != []
    ensures var after := HandleSubmitIntended(s, Transmit(r)).0;
      && after.status == Some(Error)
      && (r.details.NoDetails? ==> after.message == r.message)
      && (r.details.DetailList? && r.details.items != [] ==>
            after.message == FixMessage && after.errors == DetailsToErrors(r.details.items))
  {
    ServerErrorsSurvive(r);
  }

  /** The two handlings differ only where the details array is empty. */
  lemma IntendedAgreesElsewhere(s: FormState, result: SubmitResult)
    requires !(result.SubmitFailed? && result.details == Some(DetailArray([])))
    ensures AfterReplyIntended(s, result) == AfterReply(s, result)
  {
  }
}
