# Portfolio contact pipeline in Dafny

This project models the working core of a personal portfolio site: a React front end and an
Express/MongoDB back end that also ships as a serverless function.

**Back end**
- The contact submission pipeline. It exists twice, once as a serverless handler
  (`backend/api/contact.js`) and once as an Express route (`backend/routes/contact.js`).
  Both write through the mongoose `Contact` model (`backend/models/Contact.js`). The model
  covers:
  - field validation;
  - the hourly per-address rate limit and the five-minute duplicate check;
  - the schema's setters, validators, defaults and pre-save sanitiser;
  - the error envelopes.
- The database connection object with its retry policy (`backend/config/database.js`).
- The e-mail service (`backend/services/emailService.js`): transporter set-up, the template
  cache with its fallbacks, and the three send operations.
- The application's CORS origin policy, error middleware, 404 answer and lazy database start-up
  (`backend/server.js`, `backend/api/index.js`).

**Front end**
- The contact form's validation and submit handling (`Contact.jsx`).
- The API client's envelopes (`contactService.js`).
- The projects filter and card truncation (`Projects.jsx`).
- The statistics derived from the static skills and projects data.

Each module follows one source file or concern:

| module | file | models |
|---|---|---|
| `Base` | `base.dfy` | optional values, counting, filtering, `[...new Set(s)]` |
| `Text` | `text.dfy` | `trim`, ASCII `toLowerCase`, `split(',')[0]`, the name and e-mail patterns, the sanitiser's two regular expressions |
| `Envelope` | `envelope.dfy` | the JSON answers and the thrown errors |
| `ContactSchema` | `contact_schema.dfy` | the `Contact` model: cast, validate, pre-save, save, the two static queries, `toSafeObject` |
| `RateWindow` | `rate_window.dfy` | the store invariant "no address has more than five records in any hour" |
| `ApiContact` | `api_contact.dfy` | the serverless handler, and sequences of requests |
| `RoutesContact` | `routes_contact.dfy` | the Express route with its validator chains, and the statistics route |
| `Database` | `database.dfy` | `connect` with retries, the status report, URI masking |
| `EmailService` | `email_service.dfy` | the e-mail service |
| `ServerApp` | `server_app.dfy` | CORS, error middleware, 404, `initializeDatabase` |
| `ContactForm` | `contact_form.dfy` | the form component |
| `ContactClient` | `contact_client.dfy` | the API client |
| `Projects` | `projects.dfy` | the projects section and `projectStats` |
| `Skills` | `skills.dfy` | `skillStats` |

**What becomes a parameter.** Everything the code cannot decide by itself is an input:
- the store is a sequence of records, and the clock is an integer number of milliseconds;
- database faults, template files, SMTP delivery and the `validator` / express-validator
  checks are oracles;
- the HTTP round trip is a reply value.

Where the serverless handler and the Express route differ, both behaviours are modelled and a
lemma states the difference.

**Where the code and the written description of the system differ, the model follows the code:**
- The serverless handler's own field checks never bound the address length; the Express route's
  checks do (`RoutesContact.LongAddressOnlyRouteRejects`). A longer address that reaches the
  serverless store stage is refused by the schema's own 254 limit, and the answer is a 400
  `MONGOOSE_VALIDATION_ERROR` instead of `VALIDATION_ERROR` (`ApiContact.AdmitSchemaGap`).
- Duplicate detection compares the incoming trimmed message with stored messages that have
  already been through the pre-save sanitiser. A message containing a tag is therefore never
  found to be a duplicate (`ApiContact.TaggedMessageNeverDuplicate`). Conversely, a message such
  as `Hello world <b>` is stored as `Hello world`, so sending `Hello world` afterwards is a 409
  (`ApiContact.StrippedTagMakesDuplicate`).
- Only the serverless handler sends the two notification e-mails after a submission is
  accepted. The Express route sends none.

## Model

| member | source | states |
|---|---|---|
| `ApiContact.ForwardedClient` | backend/api/contact.js:7-11 | The first comma-separated entry of `X-Forwarded-For`, trimmed. It is empty exactly when the header is absent or that entry is blank. |
| `ApiContact.GetClientIP` | backend/api/contact.js:7-11 | The client address is never empty. It is the forwarded entry if there is one, else a non-empty `X-Real-IP`, else `0.0.0.0`. |
| `ApiContact.UserAgentOf` | backend/api/contact.js:158 | The user agent is the header when it is present and non-empty, otherwise `Unknown`. |
| `ApiContact.AllowOrigin` | backend/api/contact.js:14-36 | The CORS header is `*` or the request's own non-empty origin. Any origin containing `vercel.app` is echoed, and a missing origin gets `*`. |
| `ApiContact.Configured` | backend/api/contact.js:15-23 | An environment origin enters the list exactly when it is set and non-empty, as `filter(Boolean)` keeps it. |
| `ApiContact.AllowedOrigins` | backend/api/contact.js:15-23 | The list has no empty entry. It always holds the three localhost origins, plus each configured environment origin. |
| `ApiContact.CheckFields` | backend/api/contact.js:83-155 | The handler answers 400 `VALIDATION_ERROR` exactly when the untrimmed fields fail one of its checks. A missing field gives the "All fields are required" answer, and each later check gives its own message. |
| `ApiContact.DraftOf` | backend/api/contact.js:194-201 | The values handed to the model are already in cast form, so the schema setters leave them alone. They carry the request's client address and user agent. |
| `ApiContact.MapCaughtError` | backend/api/contact.js:259-299 | Every caught error becomes one of the known codes. A schema failure keeps every path error, in order and recoverable from its details. Database errors give 500 `DATABASE_ERROR`. The generic 500 carries the message as details only in the serverless handler. |
| `ApiContact.CatchStylesAgree` | backend/routes/contact.js:129-167 | The two catch blocks give the same status, message and code for every error. They differ only in the generic answer's `details`. |
| `ApiContact.Screen` | backend/api/contact.js:161-191 | A request let through is under the hourly limit. A 409 is given only when a recent stored record has the same address and message. |
| `ApiContact.Commit` | backend/api/contact.js:194-257 | A 201 is given exactly when the save succeeds, and the store then grows by exactly the saved record. Otherwise the store is unchanged and the caught error is answered. |
| `ApiContact.Persist` | backend/api/contact.js:161-257 | A 201 implies that the address was under the limit, that the save succeeded and that exactly that record was appended. Any other answer leaves the store unchanged. |
| `ApiContact.Admit` | backend/api/contact.js:52-300 | OPTIONS gives 200, and any verb other than POST gives 405, both with no change to the store. A 201 appends one record with the next id, stamped now, with status `new`. Every other answer leaves the store as it was. |
| `ApiContact.PersistRateLimits` | backend/api/contact.js:161-174 | Five or more records from the address within the hour give a 429, and nothing is stored. |
| `ApiContact.PersistRejectsDuplicate` | backend/api/contact.js:177-191 | Under the limit, a record from the last five minutes with the same address and message gives a 409, and nothing is stored. |
| `ApiContact.PersistAcceptsExactly` | backend/api/contact.js:161-204 | A draft is stored exactly when all of these hold: no database fault, under the limit, no recent duplicate, and the schema accepts the cast draft. |
| `ApiContact.PersistSchemaGap` | backend/api/contact.js:263-278 | A draft the schema rejects gives 400 `MONGOOSE_VALIDATION_ERROR` carrying the schema's path errors. |
| `ApiContact.AdmitReachesStore` | backend/api/contact.js:83-204 | A POST whose fields pass goes on to the store stage with its draft. |
| `ApiContact.AdmitRejectsInvalidFields` | backend/api/contact.js:83-155 | The handler's own 400 comes from POST requests whose fields fail its checks, and from no other request. |
| `ApiContact.AdmitRateLimits` | backend/api/contact.js:161-174 | A valid POST from an address with five records in the last hour gets a 429, and nothing is stored. |
| `ApiContact.AdmitRejectsDuplicate` | backend/api/contact.js:177-191 | A valid POST under the limit whose lower-cased address and trimmed message match a record from the last five minutes gets a 409, and nothing is stored. |
| `ApiContact.AdmitAcceptsExactly` | backend/api/contact.js:52-257 | A valid POST is stored exactly when there is no fault, it is under the limit, there is no duplicate, and the schema accepts the draft. |
| `ApiContact.AdmitStoresRecord` | backend/models/Contact.js:100-113 | The stored record holds the trimmed fields and the lower-cased address, passed through the pre-save sanitiser, with the schema defaults. |
| `ApiContact.AdmitStoresSanitised` | backend/api/contact.js:194-204 | A created submission adds exactly one record, and the duplicate query from time `now` on matches it against the trimmed lower-cased address and the sanitised trimmed message. |
| `ApiContact.StrippedTagMakesDuplicate` | backend/api/contact.js:177-191 | Once words followed by a tag are stored, the bare words sent again from the same address within five minutes are answered 409, and nothing is stored. |
| `ApiContact.AdmitSchemaGap` | backend/api/contact.js:100-155 | A POST that passes the handler's checks on untrimmed values can still be refused by the schema's checks on trimmed values. The answer is then 400 `MONGOOSE_VALIDATION_ERROR`. |
| `ApiContact.PaddedNameSlipsPast` | backend/api/contact.js:100-121 | The name `" A "` passes the handler's length and character checks, yet trims to a one-letter name that the schema refuses. |
| `ApiContact.Run` | backend/api/contact.js:52-300 | Serving requests in order only ever appends to the store, at most one record per request. |
| `ApiContact.AdmitExtends` | backend/api/contact.js:194-204 | A single request leaves the store as it was or adds one record at its end. |
| `ApiContact.PersistKeepsHourlyBound` | backend/api/contact.js:161-204 | The store stage preserves the invariant that every record has at most five records from its address within the hour ending at it. |
| `ApiContact.AdmitKeepsHourlyBound` | backend/api/contact.js:161-174 | Every request preserves that invariant. |
| `ApiContact.RunKeepsHourlyBound` | backend/api/contact.js:161-174 | Whatever requests arrive, when they are served one after another no address ever has more than five stored submissions within any one hour. |
| `ApiContact.SanitisedAppend` | backend/models/Contact.js:107-110 | Appending a tag-free message keeps every stored message tag-free. |
| `ApiContact.PersistKeepsSanitised` | backend/models/Contact.js:100-113 | The store stage keeps every stored message tag-free. |
| `ApiContact.AdmitKeepsSanitised` | backend/models/Contact.js:100-113 | Every request keeps every stored message tag-free. |
| `ApiContact.TaggedMessageNeverDuplicate` | backend/api/contact.js:177-181 | A message whose trimmed text contains a tag is never answered with 409, however often it is sent. |
| `ApiContact.NoStoredTaggedMessage` | backend/models/Contact.js:125-132 | The duplicate query never matches a tagged message against a sanitised store. |
| `RoutesContact.FirstTruthy` | backend/routes/contact.js:39-45 | The result of a chain of `\|\|` is the first present, non-empty candidate, and the fallback when there is none. |
| `RoutesContact.RouteClientIP` | backend/routes/contact.js:39-45 | The route's client address is never empty. |
| `RoutesContact.Check` | backend/routes/contact.js:8-36 | One validator check yields no error exactly when it holds. A failing check yields one error that carries the checked value. |
| `RoutesContact.NameErrors` | backend/routes/contact.js:9-15 | The name chain finds nothing exactly when the name has 2 to 100 characters from the allowed set. |
| `RoutesContact.EmailErrors` | backend/routes/contact.js:17-23 | The e-mail chain finds nothing exactly when the address is accepted and has at most 254 characters. An address that is too long ends with the length message. |
| `RoutesContact.ChainErrors` | backend/routes/contact.js:8-36 | The four chains find nothing exactly when every rule holds. There are at most six errors, each about one field and carrying that field's value. |
| `RoutesContact.ChainErrorsInOrder` | backend/routes/contact.js:8-36 | Errors appear chain by chain: name, then email, then subject, then message. |
| `RoutesContact.RuleErrors` | backend/routes/contact.js:8-36 | On a request body the rules fail exactly when some rule fails on the trimmed values. The errors come in chain order. |
| `RoutesContact.RulesSeeTrimmedValues` | backend/routes/contact.js:8-36 | Two bodies that agree once trimmed get the same errors. |
| `RoutesContact.LongAddressOnlyRouteRejects` | backend/routes/contact.js:21-22 | An address over 254 characters passes the serverless handler's own field checks, but the route reports the length error. |
| `RoutesContact.RouteDraft` | backend/routes/contact.js:103-110 | The route stores the normalised address and the escaped message, along with its own client address and user agent. |
| `RoutesContact.ValidationFailed` | backend/routes/contact.js:48-70 | A failed validation gives 400 `VALIDATION_ERROR` with one detail per error, in order, and nothing is lost. |
| `RoutesContact.Route` | backend/routes/contact.js:57-169 | The route answers 400 `VALIDATION_ERROR` exactly when a rule fails, and then stores nothing. A 201 appends one record, and every other answer leaves the store as it was. |
| `RoutesContact.RouteReachesStore` | backend/routes/contact.js:57-113 | A body that passes the rules goes to the same store stage as the serverless handler, with the route's draft. |
| `RoutesContact.RouteRateLimits` | backend/routes/contact.js:79-88 | Five records from the address within the hour give a 429, and nothing is stored. |
| `RoutesContact.RouteRejectsDuplicate` | backend/routes/contact.js:91-100 | A recent record with the normalised address and escaped message gives a 409, and nothing is stored. |
| `RoutesContact.RouteAcceptsExactly` | backend/routes/contact.js:57-127 | A valid body is stored exactly when there is no fault, it is under the limit, there is no duplicate, and the schema accepts the draft. The record stored is the saved draft. |
| `RoutesContact.RouteGenericFailureHasNoDetails` | backend/routes/contact.js:161-167 | An unexpected error gives a 500 with no `details`, and nothing is stored. |
| `RoutesContact.RouteKeepsHourlyBound` | backend/routes/contact.js:79-113 | The route preserves the hourly invariant too. |
| `RoutesContact.CountSince` | backend/routes/contact.js:190-203 | A window count never exceeds the number of stored records. |
| `RoutesContact.Stats` | backend/routes/contact.js:172-226 | A fault gives the fixed 500 `STATS_ERROR` answer. Otherwise the total is the store size, the day and week counts are the records stamped since local midnight and since seven days ago, neither exceeds the total, and an empty store gives zeros. |
| `RoutesContact.TodayWithinWeek` | backend/routes/contact.js:182-203 | When local midnight lies within the last week, today's count is at most the week's. |
| `RoutesContact.StatsCountNewSubmission` | backend/routes/contact.js:182-203 | A submission stamped now, after midnight, raises the total, week and day counts by one each. |
| `ContactSchema.Cast` | backend/models/Contact.js:5-67 | After the setters the four text fields are trimmed and the address is lower case. The address and user agent are untouched. |
| `ContactSchema.CastIdempotent` | backend/models/Contact.js:5-48 | Applying the setters twice is applying them once. |
| `ContactSchema.Validate` | backend/models/Contact.js:5-67 | Validation finds no error exactly when every declared constraint holds. There is at most one error per path. |
| `ContactSchema.Sanitise` | backend/models/Contact.js:100-113 | A sanitised field has no tag left, is no longer than before, and is trimmed, because each of the hook's assignments runs the `trim` setter again. |
| `ContactSchema.SanitiseFixesClean` | backend/models/Contact.js:100-113 | A field that is already trimmed, has single blanks only and holds no tag is stored as it is. |
| `ContactSchema.TagRemoved` | backend/models/Contact.js:107-107 | A `<`, text without `>`, and a `>` are removed as one tag. |
| `ContactSchema.TrailingTagDropped` | backend/models/Contact.js:102-110 | Words followed by a blank and a tag come out as the words alone: the blank left before the removed tag is trimmed by the second assignment. |
| `ContactSchema.PreSave` | backend/models/Contact.js:100-113 | The hook rewrites name, subject and message through the sanitiser and leaves every other field alone. |
| `ContactSchema.Save` | backend/models/Contact.js:1-154 | A save succeeds exactly when the cast draft satisfies the schema and the database raises no fault. A schema failure reports the path errors. |
| `ContactSchema.SaveDefaults` | backend/models/Contact.js:70-87 | A saved record is stamped now, has status `new`, is not spam and has version 0. Its id is the next position, so a store whose ids are its positions keeps that property and no two records share an id. |
| `ContactSchema.RecentSubmissionsCount` | backend/models/Contact.js:116-122 | The count is zero exactly when no stored record from the address lies in the window. |
| `ContactSchema.RecentCountIsExact` | backend/models/Contact.js:116-122 | The count equals the number of stored positions holding a record from the address, no older than the window. |
| `ContactSchema.RecentCountMonotone` | backend/models/Contact.js:116-122 | A wider window never counts fewer submissions. |
| `ContactSchema.RecentCountAppend` | backend/models/Contact.js:116-122 | Appending a record raises the count by one exactly when the record is from the address and inside the window. |
| `ContactSchema.CheckForDuplicates` | backend/models/Contact.js:125-132 | A record is found exactly when some stored record has the address and message and is inside the window. What is found is such a record. |
| `ContactSchema.ToSafeObject` | backend/models/Contact.js:135-142 | The safe object keeps every field except the address, the user agent and the version. |
| `ContactSchema.SafeObjectForgetsTracking` | backend/models/Contact.js:135-142 | Records that differ only in the removed fields have the same safe object. |
| `ContactSchema.SafeObjectKeepsTheRest` | backend/models/Contact.js:135-142 | Records with the same safe object differ at most in the removed fields. |
| `RateWindow.AppendKeepsBound` | backend/api/contact.js:161-174 | Appending a record that the rate check let through keeps the hourly invariant. |
| `RateWindow.PrefixKeepsBound` | backend/models/Contact.js:116-122 | Every prefix of a store that satisfies the invariant satisfies it too. |
| `RateWindow.AnyHourAtMostFive` | backend/routes/contact.js:79-88 | Under the invariant no address has more than five records in any closed hour. |
| `Text.Trim` | frontend/src/components/Contact.jsx:39-47 | The result has no space at either end, only spaces were removed around it, and it is empty exactly when the input is blank. |
| `Text.TrimOfTrimmed` | backend/models/Contact.js:8-8 | A string without spaces at its ends is left unchanged by trimming. |
| `Text.TrimIdempotent` | backend/models/Contact.js:8-8 | Trimming twice is trimming once. |
| `Text.ToLower` | backend/api/contact.js:178-178 | Lower-casing keeps the length and maps each character on its own. |
| `Text.ToLowerIdempotent` | backend/models/Contact.js:20-32 | Lower-casing twice is lower-casing once. |
| `Text.ToLowerKeepsTrimmed` | backend/models/Contact.js:20-32 | Lower-casing a trimmed address keeps it trimmed, so the two setters commute on it. |
| `Text.FirstField` | backend/api/contact.js:8-8 | The first field is the longest comma-free prefix, and a comma follows it when it is shorter than the input. |
| `Text.MatchesEmailPattern` | backend/api/contact.js:124-133 | The executable test accepts exactly the strings of the address pattern's shape. |
| `Text.CollapseSpaces` | backend/models/Contact.js:102-104 | The result has no two adjacent spaces, and every space in it is a blank. It is empty exactly when the input is, and it has a space at an end exactly when the input does. |
| `Text.CollapseFixesCollapsed` | backend/models/Contact.js:102-104 | A string already collapsed is left alone. |
| `Text.CollapseIdempotent` | backend/models/Contact.js:102-104 | Collapsing twice is collapsing once. |
| `Text.StripTags` | backend/models/Contact.js:107-110 | The result contains no tag, is no longer than the input, and uses only characters of the input. |
| `Text.StripFixesTagFree` | backend/models/Contact.js:107-110 | A tag-free string is left alone. |
| `Text.StripIdempotent` | backend/models/Contact.js:107-110 | Stripping twice is stripping once. |
| `Envelope.FieldErrorDetails` | backend/api/contact.js:264-268 | There is one detail per path error, with the same field, message and value. |
| `Envelope.FieldErrorDetailsRoundTrip` | backend/api/contact.js:264-268 | The path errors can be read back out of the details with nothing lost or reordered. |
| `Database.ConnectFrom` | backend/config/database.js:11-76 | A call resolves exactly when the object ends connected. The number of driver calls is bounded by the retries left plus one. Without a URI no driver call is made; with one and a connection not yet open, at least one is. An already-open connection resolves at once. |
| `Database.Connect` | backend/config/database.js:11-76 | `connect` resolves exactly when the object ends connected. |
| `Database.FreshConnectBounded` | backend/config/database.js:61-66 | From a fresh object one call makes at most four driver attempts. |
| `Database.PersistentFailureExhaustsRetries` | backend/config/database.js:46-74 | When every attempt fails with a retryable error, the call gives up with the retry count at its limit. |
| `Database.ExhaustedObjectTriesOnce` | backend/config/database.js:61-74 | An object that has used up its retries makes at most one attempt per call, and exactly one when the URI is set and the connection is not open. |
| `Database.AuthFailureNotRetried` | backend/config/database.js:49-51 | An authentication failure is not retried, and is reported with its own message. |
| `Database.MissingUriRetriedToLimit` | backend/config/database.js:20-24 | Without a connection string no driver call is made, yet the error is retried until the count reaches its limit. |
| `Database.ReadyStateText` | backend/config/database.js:95-112 | The state name is `unknown` exactly outside 0 to 3, and `connected` exactly for 1. |
| `Database.ReadyStateTextInjective` | backend/config/database.js:95-112 | The four known states have four different names. |
| `Database.ConnectionStatusOf` | backend/config/database.js:95-112 | The status report copies the object's fields and names its state. |
| `Database.MatchEnd` | backend/config/database.js:125-127 | The credential pattern matches at a position in at most one way, and the function finds that match when there is one. |
| `Database.NoCredentialsUnchanged` | backend/config/database.js:125-127 | A URI with no credentials is returned as it is. |
| `Database.LeftmostCredentialsMasked` | backend/config/database.js:125-127 | The leftmost credentials, from `//` to `@`, are replaced by the mask, and the rest is kept. |
| `Database.MaskedUriExample` | backend/config/database.js:125-127 | A cluster connection string loses its user name and password and nothing else. |
| `EmailService.DecimalRoundTrip` | backend/services/emailService.js:49-49 | `parseInt` reads a written-out number back as that number. |
| `EmailService.ParseDigits` | backend/services/emailService.js:49-49 | `parseInt` reads a non-empty run of decimal digits as its value. |
| `EmailService.PortOf` | backend/services/emailService.js:49-49 | The port is never 0, because an unset, unreadable or zero port becomes 587. |
| `EmailService.PortRoundTrip` | backend/services/emailService.js:49-49 | A configured numeral gives its own number, and 587 when it is zero. |
| `EmailService.TransportOf` | backend/services/emailService.js:38-71 | The transport is secure exactly when `EMAIL_SECURE` is `true`. The host defaults to Gmail's, and the credentials and port come from the settings. |
| `EmailService.InitializeTransporter` | backend/services/emailService.js:38-71 | The service is initialised exactly when both credentials are set and creation does not throw, and then it holds the described transport. The cache is untouched. |
| `EmailService.EnsureInitialized` | backend/services/emailService.js:153-158 | An initialised service with a transporter is left alone, and any other is initialised. |
| `EmailService.Reinitialize` | backend/services/emailService.js:18-22 | Reinitialising drops the transporter and the flag, then initialises. |
| `EmailService.OperationsKeepConsistent` | backend/services/emailService.js:38-71 | The flag is up exactly when there is a transporter, and both operations keep it so. |
| `EmailService.NewServiceIsConsistent` | backend/services/emailService.js:10-15 | A new service is consistent and has an empty template cache. |
| `EmailService.ReinitializeForgetsOld` | backend/services/emailService.js:18-22 | The outcome of reinitialising depends only on the settings and the cache. |
| `EmailService.FallbackTemplate` | backend/services/emailService.js:120-150 | An unknown template name gets the generic fallback. |
| `EmailService.FallbacksFilled` | backend/services/emailService.js:120-150 | Each fallback is filled with data that supplies every name it uses. |
| `EmailService.LoadTemplate` | backend/services/emailService.js:92-117 | A cached template is returned as it is. A file that reads is compiled and cached. A missing file gives the fallback, uncached. The transporter is untouched. |
| `EmailService.LoadKeepsCache` | backend/services/emailService.js:92-117 | The cache only grows, and an entry once made never changes. |
| `EmailService.SecondLoadIsCacheHit` | backend/services/emailService.js:92-117 | After a successful read, the next load of the same name neither reads nor changes anything. |
| `EmailService.FallbackNotCached` | backend/services/emailService.js:92-117 | A missing file is tried again on the next load. |
| `EmailService.Outcome` | backend/services/emailService.js:215-227 | A send reports success exactly when the transporter delivered. A bounce reports the transporter's message. |
| `EmailService.NotificationMail` | backend/services/emailService.js:194-209 | The notification goes to the owner, replies go to the sender, and its subject prefixes the submission's subject. |
| `EmailService.AutoReplyMail` | backend/services/emailService.js:259-273 | The auto-reply goes to the sender, and its subject thanks them and repeats theirs. |
| `EmailService.SendContactNotification` | backend/services/emailService.js:161-229 | Any mail handed over is the notification for the submission. |
| `EmailService.SendAutoReply` | backend/services/emailService.js:232-293 | Any mail handed over is the auto-reply for the submission. |
| `EmailService.SendTestEmail` | backend/services/emailService.js:340-390 | A test mail is handed over exactly when there is a transporter, and otherwise the result is the not-initialised failure. |
| `EmailService.NoCredentialsNoMail` | backend/services/emailService.js:153-158 | Without credentials none of the three operations hands over a mail. |
| `EmailService.SuccessMeansDelivered` | backend/services/emailService.js:215-227 | A send reports success exactly when a mail was handed over and delivered. |
| `EmailService.SendingKeepsService` | backend/services/emailService.js:161-229 | Sending never loses the transporter or a cached template. |
| `EmailService.Masked` | backend/services/emailService.js:25-35 | A secret setting is reported only as configured or not set. |
| `EmailService.GetStatus` | backend/services/emailService.js:25-35 | The report names the host and port but never the user or the addresses. |
| `EmailService.VerifyConnection` | backend/services/emailService.js:74-89 | The verification is true exactly when a transporter exists after initialising and the server answers. |
| `ServerApp.CorsOrigin` | backend/server.js:23-58 | A refused origin gets the "Not allowed by CORS" error. |
| `ServerApp.CorsAllowsExactly` | backend/server.js:23-58 | An origin is admitted exactly when it is missing, listed, or a recognised preview host. Configuring more origins never refuses one that was admitted before. |
| `ServerApp.ProductionEntriesArePreviews` | backend/server.js:38-49 | Both production entries of the list would pass on their host name alone. |
| `ServerApp.Localhost3001OnlyEchoed` | backend/api/contact.js:15-23 | `http://localhost:3001` is echoed by the contact function but refused by the application. |
| `ServerApp.EchoedOriginsAdmitted` | backend/api/contact.js:14-36 | Apart from that origin, every origin the contact function echoes, the application admits. |
| `ServerApp.EchoListMembers` | backend/api/contact.js:15-23 | Each entry of the function's list is a configured origin, an entry of the application's list, `:3001`, or the other backend. |
| `ServerApp.SigmaBackendIsPreview` | backend/api/contact.js:22-22 | The second deployed backend passes the preview test. |
| `ServerApp.ErrorMiddleware` | backend/server.js:165-200 | Only a `ValidationError` gives a `VALIDATION_ERROR` with a string `details`, always as a 400. Every other error has no details. |
| `ServerApp.DefaultErrorKeepsItsOwnParts` | backend/server.js:192-199 | Any other error keeps its own status, message and code, and each missing one takes its default. |
| `ServerApp.DatabaseErrorsAgree` | backend/server.js:182-190 | A database error gets the same status and code from the middleware as from the contact function. |
| `ServerApp.ValidationErrorsDiffer` | backend/server.js:170-179 | A mongoose validation error gets 400 from both. The middleware answers `VALIDATION_ERROR` with a string `details`, and the contact function a different code with a list of details. |
| `ServerApp.Respond` | backend/server.js:165-211 | An unmatched route gets a 404, a raised error goes through the middleware, and an answer is sent as it is. |
| `ServerApp.NotFoundOnlyWhenUnrouted` | backend/server.js:203-211 | A 404 comes only from an unmatched route or from an error that carries 404 itself. |
| `ServerApp.InitializeDatabase` | backend/api/index.js:92-103 | After one success, later calls change nothing. Otherwise the database connects, and the flag records whether it succeeded. |
| `ServerApp.InitializedIffConnected` | backend/api/index.js:92-103 | The flag is set exactly when the connection object reports itself connected. |
| `ServerApp.FailedStartLeavesOneAttempt` | backend/api/index.js:92-103 | After a failed start-up that exhausted the retries, the next request makes exactly one driver attempt. |
| `ContactForm.FieldMessage` | frontend/src/components/Contact.jsx:34-85 | Unknown fields get no message, and a blank value in a known field always gets one. |
| `ContactForm.ValidateField` | frontend/src/components/Contact.jsx:34-85 | The result holds at most one entry, under the field's own name. |
| `ContactForm.ValidateFieldExact` | frontend/src/components/Contact.jsx:34-85 | The validator finds nothing exactly when the trimmed value meets every requirement of its field. |
| `ContactForm.FieldMessageExact` | frontend/src/components/Contact.jsx:34-85 | The chain of checks passes exactly when the trimmed value meets every requirement. |
| `ContactForm.BlankIsRequired` | frontend/src/components/__tests__/Contact.test.jsx:67-79 | A whitespace-only value is reported as required, not as too short. |
| `ContactForm.OneLetterNameTooShort` | frontend/src/components/__tests__/Contact.test.jsx:92-101 | The name `A` gets "Name must be at least 2 characters". |
| `ContactForm.FormErrors` | frontend/src/components/Contact.jsx:114-124 | Errors are only about known fields that the form holds. |
| `ContactForm.ValidateForm` | frontend/src/components/Contact.jsx:114-124 | The form is valid exactly when the merged error object is empty. |
| `ContactForm.ValidateFormIsUnion` | frontend/src/components/Contact.jsx:114-124 | The form is valid exactly when every field's own validator finds nothing, and the merged object holds each field's entry. |
| `ContactForm.HandleInputChange` | frontend/src/components/Contact.jsx:88-111 | Editing a field stores the value and clears a shown status. Only that field's error is recomputed, and the other errors are kept. |
| `ContactForm.ValidInputClearsError` | frontend/src/components/Contact.jsx:88-111 | Typing an acceptable value removes that field's error. |
| `ContactForm.DetailsToErrors` | frontend/src/components/Contact.jsx:160-166 | The server's details give one error per field named in them. |
| `ContactForm.LastDetailWins` | frontend/src/components/Contact.jsx:160-166 | Each field shows the message of its last detail. |
| `ContactForm.AfterReply` | frontend/src/components/Contact.jsx:141-175 | Submission always ends. Success resets the form and shows the server's message. A failure keeps the data and shows an error. |
| `ContactForm.HandleSubmit` | frontend/src/components/Contact.jsx:127-178 | The client is called exactly when the form is valid. An invalid form shows its errors and the "fix the errors above" message. |
| `ContactForm.SuccessResetsForm` | frontend/src/components/Contact.jsx:144-155 | A successful submission empties all four fields and every error. |
| `ContactForm.RateLimitMessageHidden` | frontend/src/components/Contact.jsx:156-170 | As written, a 429 answer shows "Please fix the errors and try again." instead of the rate-limit message, and no field error. |
| `ContactForm.AfterReplyIntended` | frontend/src/components/Contact.jsx:156-170 | Corrected handling: only a non-empty details array is read as field errors, and otherwise the server's message is shown. |
| `ContactForm.HandleSubmitIntended` | frontend/src/components/Contact.jsx:127-178 | Corrected submit: it calls the client exactly when the form is valid. |
| `ContactForm.ServerMessageShown` | frontend/src/components/Contact.jsx:168-168 | Under the corrected handling, every server error without field details reaches the user with its own message. |
| `ContactForm.IntendedAgreesElsewhere` | frontend/src/components/Contact.jsx:156-170 | The corrected and the written handling differ only on an empty details array. |
| `ContactClient.DropTrailingSlash` | frontend/src/services/contactService.js:4-4 | At most one character is removed, and only from the end. |
| `ContactClient.BaseUrl` | frontend/src/services/contactService.js:4-4 | Without a configured URL the base is `http://localhost:5000`. |
| `ContactClient.DropTrailingSlashRoundTrip` | frontend/src/services/contactService.js:4-4 | A written-out trailing slash is dropped again, and a URL without one is left alone. |
| `ContactClient.OnlyOneSlashDropped` | frontend/src/services/contactService.js:4-4 | A URL ending in two slashes keeps one. |
| `ContactClient.Transmit` | frontend/src/services/contactService.js:59-71 | The client sees an error status exactly for the server's error answers. |
| `ContactClient.FailureEnvelope` | frontend/src/services/contactService.js:59-90 | Every failure has a code. There is a status exactly for error answers, and details exactly when asked for on an error answer. |
| `ContactClient.SubmitContactForm` | frontend/src/services/contactService.js:49-92 | The call never rejects. It succeeds exactly on a success status, and a network failure gets the fixed network envelope. |
| `ContactClient.SendTestEmail` | frontend/src/services/contactService.js:145-182 | The same split as form submission, with its own defaults and never a `details` member. |
| `ContactClient.PostingCallsAgree` | frontend/src/services/contactService.js:59-90 | The two posting calls agree on the status and code of every failure. |
| `ContactClient.ServerErrorsSurvive` | frontend/src/services/contactService.js:59-71 | A server error reaches the form with its status, message and code intact. Missing details arrive as an empty array. |
| `ContactClient.AcceptanceSurvives` | frontend/src/services/contactService.js:52-56 | A 201 reaches the form as success with the server's own message. |
| `ContactClient.GetContactStats` | frontend/src/services/contactService.js:98-115 | Any failure becomes the fixed `STATS_ERROR` envelope, and success passes the data on. |
| `ContactClient.CheckEmailStatus` | frontend/src/services/contactService.js:121-138 | Any failure becomes the fixed `EMAIL_STATUS_ERROR` envelope, and success passes the data on. |
| `Projects.FilterProjects` | frontend/src/components/Projects.jsx:9-11 | `all` shows every project. Any other selection shows exactly the projects of that category. |
| `Projects.FilterKeepsOrder` | frontend/src/components/Projects.jsx:9-11 | The filter keeps the data's order and drops or repeats nothing of the selected category. |
| `Projects.ShowsEmptyState` | frontend/src/components/Projects.jsx:194-204 | The empty state is shown exactly when no project matches the selection. |
| `Projects.Truncate` | frontend/src/components/Projects.jsx:129-158 | The shown entries are a prefix of at most the limit. A `+N` badge appears exactly when entries are hidden, and N is positive. |
| `Projects.TruncationAccountsForAll` | frontend/src/components/Projects.jsx:129-158 | The shown entries and the badge's count account for the whole list. |
| `Projects.FeatureList` | frontend/src/components/Projects.jsx:129-139 | A card shows the first three features at most, with a badge exactly when there are more. |
| `Projects.TechnologyBadges` | frontend/src/components/Projects.jsx:146-158 | A card shows the first four technologies at most, with a badge exactly when there are more. |
| `Projects.AllTechnologies` | frontend/src/data/projects.js:85-85 | The flattened list holds every project's technologies and nothing else. |
| `Projects.StatsOf` | frontend/src/data/projects.js:82-87 | The total is the number of projects. The completed count equals it exactly when every project is completed. |
| `Projects.CompletedOnlyWhenAll` | frontend/src/data/projects.js:84-84 | The completed count reaches the total exactly when each project is completed. |
| `Projects.StatsCount` | frontend/src/data/projects.js:82-87 | The completed count is the number of completed projects, and `technologiesUsed` is the number of different technology names. |
| `Projects.CategoriesCoverData` | frontend/src/data/projects.js:74-80 | The first button shows everything. The buttons select different values, and every project's category has a button. |
| `Projects.FilteringTheData` | frontend/src/components/__tests__/Projects.test.jsx:27-38 | On the data, `Frontend` shows NewsNexus alone, and `Backend` and `Mobile` show the empty state. |
| `Projects.DataStats` | frontend/src/data/projects.js:83-84 | On the data, three projects, all completed. |
| `Projects.DataBadges` | frontend/src/data/projects.js:1-72 | On the data every card shows both `+N` badges, with these counts. |
| `Skills.Flat` | frontend/src/data/skills.js:127-127 | The flattened list holds every category's skills and nothing else. |
| `Skills.TotalIsSumOfGroups` | frontend/src/data/skills.js:127-127 | `totalSkills` is the sum of the category sizes. |
| `Skills.AverageLevel` | frontend/src/data/skills.js:128-131 | There is no average exactly for an empty list. Otherwise it is the mean rounded half up. |
| `Skills.AverageWithinBounds` | frontend/src/data/skills.js:128-131 | The rounded average lies between the least and the greatest level. |
| `Skills.SortByLevel` | frontend/src/data/skills.js:132-135 | The sorted copy is a permutation of the skills, in non-increasing level. |
| `Skills.SortIsStable` | frontend/src/data/skills.js:132-135 | At every level the skills keep their order in the data. |
| `Skills.TopPicks` | frontend/src/data/skills.js:132-135 | The picks are the first five of the sorted copy, or all of them when fewer. |
| `Skills.TopPicksFromData` | frontend/src/data/skills.js:132-135 | Each pick is a skill of the data, taken no more often than it occurs. |
| `Skills.UnpickedNoHigher` | frontend/src/data/skills.js:132-135 | No skill left out is rated above the last one picked. |
| `Skills.TopSkills` | frontend/src/data/skills.js:132-135 | The names of the picks, in order. |
| `Skills.TopPicksAreStablePrefix` | frontend/src/data/skills.js:132-135 | At every level the picks are a prefix of the data's skills at that level. |
| `Skills.StatsOf` | frontend/src/data/skills.js:126-135 | The total is the sum of the category sizes, there is an average exactly when there are skills, and there are up to five top skills. |
| `Skills.DataSum` | frontend/src/data/skills.js:1-36 | The data has 24 skills whose levels add up to 2033. |
| `Skills.DataStats` | frontend/src/data/skills.js:126-131 | On the data there are 24 skills with average level 85. |
| `Base.FilterIsSubsequence` | frontend/src/components/Projects.jsx:9-11 | A filter keeps the order of what it keeps. |
| `Base.Distinct` | frontend/src/data/projects.js:85-85 | The distinct values are those of the input, each once. |
| `Base.DistinctCountsElements` | frontend/src/data/projects.js:85-85 | `[...new Set(s)].length` is the number of different values in `s`. |

## Left out

- Logging, `console` output and `Date` formatting for humans (`toISOString`, `toLocaleString`) are left out. They do not change any answer.
- String lengths are counted in characters, not UTF-16 code units. `toLowerCase` is modelled on ASCII letters only.
- `validator.isEmail` and `validator.isIP` are oracle parameters, because their grammars are outside this code base. So are express-validator's `isEmail`, `normalizeEmail` and `escape`.
- The database is a sequence of records, and its faults are oracle parameters. The driver's `readyState` is held constant during one `connect` call.
- The 2-second wait (`retryDelay`) between connection attempts is not modelled, because the clock is not modelled.
- `disconnect`, `testConnection`, the health and root routes, and the test-e-mail routes are not modelled. Neither is the `helmet` and `express-rate-limit` middleware: these are third-party components configured by constants.
- Handlebars rendering and the plain-text bodies of the mails are not modelled. A template is known by where it came from, and `FallbacksFilled` states what the rendering relies on.
- The notifications are not modelled as part of the 201 answer. The serverless handler starts them without awaiting them, so they cannot change the answer.
- `startOfToday` in the statistics route is a parameter, because it depends on the server's time zone.
- The `catch` block of `handleSubmit` is not modelled. `submitContactForm` never rejects, so that block cannot run.
- An `undefined` field and a missing field are the same value (`None`) in the model.
- A request body that is absent or `null` is not modelled. Destructuring it throws (backend/api/contact.js:80), and the generic handler answers 500 `INTERNAL_SERVER_ERROR` with the error message as details (lines 290-298).
- Body fields that are not strings are not modelled. One that gets past the handler's checks makes a `.trim()` call throw (lines 178-198), which ends in the same generic 500, unless the rate limit (429, lines 161-174) or, for a non-string name or subject, the duplicate check (409, lines 177-191) answers first.
- Concurrent requests are not modelled: requests are served one after another. In the code the count-then-save rate check and the duplicate check are not atomic (backend/api/contact.js:161-204, backend/routes/contact.js:79-113), so two requests in flight together can both pass them.
- The casting of query values is not modelled: mongoose runs the `trim` and `lowercase` setters on the values of a `findOne` filter, while the model queries with the draft's values as they are. For the serverless handler this changes nothing, because its draft is already in cast form (`ApiContact.DraftOf`). For the Express route it would matter only if `escape` or `normalizeEmail` produced surrounding blanks or upper-case letters.
- The `await initializeDatabase()` at the start of the serverless handler (backend/api/contact.js:78) is not part of `ApiContact.Admit`. Its copy at lines 38-50 swallows its own errors, so it cannot change the answer; `ServerApp.InitializeDatabase` models the same function as written in backend/api/index.js:92-103.
- Database.ConnectionStatusOf: the `host` and `name` fields of the status report are not modelled.
- The schema's `timestamps: true` option, which adds `createdAt` and `updatedAt`, is not modelled. Nothing in the core reads those fields.
- Template compile errors are not modelled. Handlebars compiles a template lazily, so such an error would appear only when a mail is rendered.
- Rendering is not modelled: icons, colours, descriptions, links, images and animation. Neither are the achievements and certifications data.
- Projects.StatsOf: the contract bounds `technologiesUsed` by the flattened list's length, and `StatsCount` states it exactly. That it equals 15 on the data is not proved.
- Projects.StatsOf: `githubStars` is the constant 45 written in the data file.
- Skills.TopSkills: the five names the data yields are not computed. The contract states how they are chosen.
- Database.MaskedUri: it carries no contract of its own. Its behaviour is stated by `NoCredentialsUnchanged`, `LeftmostCredentialsMasked` and `MaskedUriExample`.

## Findings

| source | as written | input that shows it | evidently intended | confidence | as-written member | corrected member |
|---|---|---|---|---|---|---|
| frontend/src/components/Contact.jsx:160-166 | `submitContactForm` turns a missing `details` into `[]` (contactService.js line 69). An empty array passes `Array.isArray`, so every server error answer whose `details` is missing, empty or an array takes the field-errors branch. Only network and set-up failures, and a `details` string, still show the message. The form shows "Please fix the errors and try again." and clears the field errors. | a 429 `IP_RATE_LIMIT_EXCEEDED` answer with no `details` | show the server's message unless the server sent field details | not executed | `ContactForm.RateLimitMessageHidden` | `ContactForm.HandleSubmitIntended` |
