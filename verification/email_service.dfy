/**
  The mail service singleton: its transporter and `initialized` flag, the compiled-template cache,
  the fallback templates, and the three send operations. The SMTP library, the file system and
  the template compiler are oracles: `createThrows` says whether building the transporter fails,
  `read` is the template file's content if it can be read, and `deliver` is what sending a
  message does.
 */
module EmailService {
  import opened Base
  import opened Text

  /** The process environment the service reads; `None` is an unset variable. */
  datatype EmailEnv = EmailEnv(
    user: Option<string>, pass: Option<string>, host: Option<string>, port: Option<string>,
    secure: Option<string>, from: Option<string>, to: Option<string>)

  /** A JavaScript truthiness test on an environment variable: set and non-empty. */
  predicate IsSet(v: Option<string>) {
    v.Some? && v.value != []
  }

  datatype Transport = Transport(host: string, port: int, secure: bool, user: string, pass: string)

  /** A compiled template, known by where its source came from. */
  datatype FallbackKind = NotificationFallback | AutoReplyFallback | GenericFallback
  datatype Template = FromFile(source: string) | Fallback(kind: FallbackKind)

  datatype Service = Service(transporter: Option<Transport>, templates: map<string, Template>, initialized: bool)

  const NewService := Service(None, map[], false)

  // ---------------------------------------------------------------------------
  // parseInt

  function DigitValue(c: char, radix: nat): (d: Option<nat>)
    requires radix == 10 || radix == 16
    ensures d.Some? ==> d.value < radix
    ensures '0' <= c <= '9' ==> d == Some((c - '0') as nat)
  {
    if '0' <= c <= '9' then Some((c - '0') as nat)
    else if radix == 16 && 'a' <= c <= 'f' then Some((c - 'a') as nat + 10)
    else if radix == 16 && 'A' <= c <= 'F' then Some((c - 'A') as nat + 10)
    else None
  }

  /** The end of the longest run of `radix` digits starting at `from`. */
  function DigitRun(s: string, from: nat, radix: nat): (e: nat)
    requires from <= |s| && (radix == 10 || radix == 16)
    ensures from <= e <= |s|
    ensures forall i :: from <= i < e ==> DigitValue(s[i], radix).Some?
    ensures e < |s| ==> DigitValue(s[e], radix).None?
    decreases |s| - from
  {
    if from < |s| && DigitValue(s[from], radix).Some? then DigitRun(s, from + 1, radix) else from
  }

  /** The value of a run of digits, most significant first. */
  function DigitsValue(ds: string, radix: nat): nat
    requires radix == 10 || radix == 16
    requires forall i :: 0 <= i < |ds| ==> DigitValue(ds[i], radix).Some?
  {
    if |ds| == 0 then 0
    else DigitsValue(ds[..|ds| - 1], radix) * radix + DigitValue(ds[|ds| - 1], radix).value
  }

  /**
    JavaScript's `parseInt(s)` with no radix: leading white space, an optional sign, an optional
    `0x` prefix choosing base 16, then the longest run of digits; `None` is `NaN`.
   */
  function ParseInt(s: string): Option<int> {
    var i := SkipSpaces(s, 0);
    var negative := i < |s| && s[i] == '-';
    var j := if i < |s| && (s[i] == '-' || s[i] == '+') then i + 1 else i;
    var hex := j + 1 < |s| && s[j] == '0' && (s[j + 1] == 'x' || s[j + 1] == 'X');
    var k := if hex then j + 2 else j;
    var radix := if hex then 16 else 10;
    var v := RunValue(s, k, radix);
    if v.None? then None
    else
      var n: int := if negative then -(v.value as int) else v.value;
      Some(n)
  }

  /** The value of the run of digits starting at `k`; `None` when there is none. */
  function RunValue(s: string, k: nat, radix: nat): (v: Option<nat>)
    requires k <= |s| && (radix == 10 || radix == 16)
    ensures v.None? <==> DigitRun(s, k, radix) == k
  {
    var e := DigitRun(s, k, radix);
    if e == k then None
    else
      var ds := s[k..e];
      assert forall i :: 0 <= i < |ds| ==> ds[i] == s[k + i];
      Some(DigitsValue(ds, radix))
  }

  /** The decimal numeral of `n`, as `String(n)` writes it. */
  function Decimal(n: nat): (s: string)
    ensures |s| > 0 && forall i :: 0 <= i < |s| ==> '0' <= s[i] <= '9'
  {
    var d := ['0' + (n % 10) as char];
    if n < 10 then d else Decimal(n / 10) + d
  }

  /** Reading a numeral back gives the number it was written from. */
  lemma {:induction false} DecimalValue(n: nat)
    ensures DigitsValue(Decimal(n), 10) == n
  {
    var s := Decimal(n);
    if n >= 10 {
      DecimalValue(n / 10);
      assert s[..|s| - 1] == Decimal(n / 10);
    }
  }

  lemma DecimalRoundTrip(n: nat)
    ensures ParseInt(Decimal(n)) == Some(n)
  {
    ParseDigits(Decimal(n));
    DecimalValue(n);
  }

  /** A non-empty run of decimal digits parses to its value. */
  lemma ParseDigits(s: string)
    requires |s| > 0 && forall i :: 0 <= i < |s| ==> '0' <= s[i] <= '9'
    ensures ParseInt(s) == Some(DigitsValue(s, 10))
  {
    assert !IsSpace(s[0]);
    assert SkipSpaces(s, 0) == 0;
    assert DigitRun(s, 0, 10) == |s|;
    assert s[0..|s|] == s;
  }

  /** `parseInt(EMAIL_PORT) || 587`: an unset, unreadable or zero port falls back to 587. */
  function PortOf(env: EmailEnv): (port: int)
    ensures port != 0
  {
    var p := if env.port.Some? then ParseInt(env.port.value) else None;
    if p.None? || p.value == 0 then 587 else p.value
  }

  lemma PortRoundTrip(env: EmailEnv, n: nat)
    requires env.port == Some(Decimal(n))
    ensures PortOf(env) == if n == 0 then 587 else n
  {
    DecimalRoundTrip(n);
  }

  // ---------------------------------------------------------------------------
  // Initialisation

  /** The transporter the settings describe. */
  function TransportOf(env: EmailEnv): (t: Transport)
    requires IsSet(env.user) && IsSet(env.pass)
    ensures t.secure <==> env.secure == Some("true")
    ensures t.host == if IsSet(env.host) then env.host.value else "smtp.gmail.com"
    ensures t.user == env.user.value && t.pass == env.pass.value && t.port == PortOf(env)
  {
    Transport(if IsSet(env.host) then env.host.value else "smtp.gmail.com", PortOf(env),
              env.secure == Some("true"), env.user.value, env.pass.value)
  }

  function InitializeTransporter(s: Service, env: EmailEnv, createThrows: bool): (r: Service)
    ensures r.templates == s.templates
    ensures r.initialized <==> IsSet(env.user) && IsSet(env.pass) && !createThrows
    ensures r.initialized ==> r.transporter == Some(TransportOf(env))
    ensures !(IsSet(env.user) && IsSet(env.pass)) ==> r.transporter == s.transporter
    ensures IsSet(env.user) && IsSet(env.pass) && createThrows ==> r.transporter.None?
  {
    if !IsSet(env.user) || !IsSet(env.pass) then s.(initialized := false)
    else if createThrows then s.(initialized := false, transporter := None)
    else s.(transporter := Some(TransportOf(env)), initialized := true)
  }

  /** Initialises again only when the flag is down or there is no transporter. */
  function EnsureInitialized(s: Service, env: EmailEnv, createThrows: bool): (r: Service)
    ensures s.initialized && s.transporter.Some? ==> r == s
    ensures !(s.initialized && s.transporter.Some?) ==> r == InitializeTransporter(s, env, createThrows)
  {
    if !s.initialized || s.transporter.None? then InitializeTransporter(s, env, createThrows) else s
  }

  function Reinitialize(s: Service, env: EmailEnv, createThrows: bool): (r: Service)
    ensures r == InitializeTransporter(Service(None, s.templates, false), env, createThrows)
  {
    InitializeTransporter(s.(transporter := None, initialized := false), env, createThrows)
  }

  /** The flag is up exactly when there is a transporter. */
  predicate Consistent(s: Service) {
    s.initialized <==> s.transporter.Some?
  }

  /**
    Through the public operations the flag and the transporter stay in step. (Initialising a
    service that already has a transporter while the credentials are unset would break this;
    neither public operation does so.)
   */
  lemma OperationsKeepConsistent(s: Service, env: EmailEnv, createThrows: bool)
    requires Consistent(s)
    ensures Consistent(EnsureInitialized(s, env, createThrows))
    ensures Consistent(Reinitialize(s, env, createThrows))
  {
  }

  lemma NewServiceIsConsistent()
    ensures Consistent(NewService) && NewService.templates == map[]
  {
  }

  /** Reinitialising forgets the old transporter: the outcome depends only on the settings and the cache. */
  lemma ReinitializeForgetsOld(s: Service, t: Service, env: EmailEnv, createThrows: bool)
    requires s.templates == t.templates
    ensures Reinitialize(s, env, createThrows) == Reinitialize(t, env, createThrows)
  {
  }

  // ---------------------------------------------------------------------------
  // Templates

  function FallbackTemplate(name: string): (t: Template)
    ensures t.Fallback?
    ensures t.kind.GenericFallback? <==> name != "contact-notification" && name != "auto-reply"
  {
    if name == "contact-notification" then Fallback(NotificationFallback)
    else if name == "auto-reply" then Fallback(AutoReplyFallback)
    else Fallback(GenericFallback)
  }

  /** The `{{…}}` names each fallback template uses. */
  function Placeholders(k: FallbackKind): set<string> {
    match k
    case NotificationFallback => {"name", "email", "subject", "message", "timestamp"}
    case AutoReplyFallback => {"name", "subject"}
    case GenericFallback => {"subject", "message"}
  }

  /** The keys of the data the notification and the auto-reply fill their templates with. */
  const NotificationData := {"name", "email", "subject", "message", "ipAddress", "userAgent", "timestamp", "portfolioUrl"}
  const AutoReplyData := {"name", "subject", "portfolioUrl", "ownerName", "ownerEmail"}

  /** Each fallback is only ever filled with data that supplies every name it uses. */
  lemma FallbacksFilled()
    ensures Placeholders(FallbackTemplate("contact-notification").kind) <= NotificationData
    ensures Placeholders(FallbackTemplate("auto-reply").kind) <= AutoReplyData
  {
  }

  /** `loadTemplate`: the cache first, then the file (cached), else the fallback (not cached). */
  function LoadTemplate(s: Service, name: string, read: Option<string>): (res: (Service, Template))
    ensures res.0.transporter == s.transporter && res.0.initialized == s.initialized
    ensures name in s.templates ==> res == (s, s.templates[name])
    ensures name !in s.templates && read.Some? ==>
      res.1 == FromFile(read.value) && res.0.templates == s.templates[name := res.1]
    ensures name !in s.templates && read.None? ==> res == (s, FallbackTemplate(name))
  {
    if name in s.templates then (s, s.templates[name])
    else if read.Some? then
      var t := FromFile(read.value);
      (s.(templates := s.templates[name := t]), t)
    else (s, FallbackTemplate(name))
  }

  /** The cache only grows, and an entry once made never changes. */
  lemma LoadKeepsCache(s: Service, name: string, read: Option<string>)
    ensures var s' := LoadTemplate(s, name, read).0;
      s.templates.Keys <= s'.templates.Keys && forall n :: n in s.templates ==> s'.templates[n] == s.templates[n]
  {
  }

  /** After a successful read, the next load of the same name neither reads nor changes anything. */
  lemma SecondLoadIsCacheHit(s: Service, name: string, content: string, read: Option<string>)
    requires name !in s.templates
    ensures var (s1, t1) := LoadTemplate(s, name, Some(content));
      LoadTemplate(s1, name, read) == (s1, t1)
  {
  }

  /** A missing file is tried again next time: the fallback is never cached. */
  lemma FallbackNotCached(s: Service, name: string, content: string)
    requires name !in s.templates
    ensures var (s1, t1) := LoadTemplate(s, name, None);
      t1 == FallbackTemplate(name) && LoadTemplate(s1, name, Some(content)).1 == FromFile(content)
  {
  }

  // ---------------------------------------------------------------------------
  // Sending

  datatype Contact = Contact(name: string, email: string, subject: string, message: string)

  /** The envelope of a message handed to the transporter. */
  datatype Mail = Mail(fromName: string, fromAddress: Option<string>, to: Option<string>,
                       subject: string, replyTo: Option<string>, template: Option<Template>)

  datatype Delivery = Delivered(messageId: string, response: string) | Bounced(message: string)

  datatype SendResult = Sent(messageId: string, response: string) | NotSent(error: string)

  /** What one send call leaves behind: the service, the result, and the message handed over if any. */
  datatype SendRun = SendRun(service: Service, result: SendResult, mail: Option<Mail>)

  const NotConfigured := "Email service not configured"
  const NotInitialized := "Email transporter not initialized - check your email configuration"

  function Outcome(d: Delivery): (r: SendResult)
    ensures r.Sent? <==> d.Delivered?
    ensures d.Bounced? ==> r.error == d.message
  {
    match d
    case Delivered(id, resp) => Sent(id, resp)
    case Bounced(m) => NotSent(m)
  }

  function NotificationMail(env: EmailEnv, c: Contact, t: Template): (m: Mail)
    ensures m.to == env.to && m.replyTo == Some(c.email) && m.fromAddress == env.from
    ensures m.subject == "New Contact Form Submission: " + c.subject
  {
    Mail("Portfolio Contact Form", env.from, env.to, "New Contact Form Submission: " + c.subject, Some(c.email), Some(t))
  }

  function AutoReplyMail(env: EmailEnv, c: Contact, t: Template): (m: Mail)
    ensures m.to == Some(c.email) && m.replyTo.None? && m.fromAddress == env.from
    ensures m.subject == "Thank you for contacting me - " + c.subject
  {
    Mail("Prince Kumar", env.from, Some(c.email), "Thank you for contacting me - " + c.subject, None, Some(t))
  }

  /** The shared shape of the two contact mails: initialise, give up without a transporter, load, send. */
  function SendWithTemplate(s: Service, env: EmailEnv, createThrows: bool, name: string, read: Option<string>,
                            build: Template -> Mail, deliver: Mail -> Delivery): (run: SendRun)
    ensures var s1 := EnsureInitialized(s, env, createThrows);
      && (s1.transporter.None? ==> run == SendRun(s1, NotSent(NotConfigured), None))
      && (s1.transporter.Some? ==>
            var (s2, t) := LoadTemplate(s1, name, read);
            run == SendRun(s2, Outcome(deliver(build(t))), Some(build(t))))
  {
    var s1 := EnsureInitialized(s, env, createThrows);
    if s1.transporter.None? then SendRun(s1, NotSent(NotConfigured), None)
    else
      var (s2, t) := LoadTemplate(s1, name, read);
      var m := build(t);
      SendRun(s2, Outcome(deliver(m)), Some(m))
  }

  function SendContactNotification(s: Service, env: EmailEnv, createThrows: bool, c: Contact,
                                   read: Option<string>, deliver: Mail -> Delivery): (run: SendRun)
    ensures run.mail.Some? ==>
      run.mail.value.to == env.to && run.mail.value.replyTo == Some(c.email)
      && run.mail.value.subject == "New Contact Form Submission: " + c.subject
  {
    SendWithTemplate(s, env, createThrows, "contact-notification", read, t => NotificationMail(env, c, t), deliver)
  }

  function SendAutoReply(s: Service, env: EmailEnv, createThrows: bool, c: Contact,
                         read: Option<string>, deliver: Mail -> Delivery): (run: SendRun)
    ensures run.mail.Some? ==>
      run.mail.value.to == Some(c.email)
      && run.mail.value.subject == "Thank you for contacting me - " + c.subject
  {
    SendWithTemplate(s, env, createThrows, "auto-reply", read, t => AutoReplyMail(env, c, t), deliver)
  }

  function SendTestEmail(s: Service, env: EmailEnv, createThrows: bool, toEmail: string,
                         deliver: Mail -> Delivery): (run: SendRun)
    ensures run.service == EnsureInitialized(s, env, createThrows)
    ensures run.mail.None? <==> run.service.transporter.None?
    ensures run.mail.None? ==> run.result == NotSent(NotInitialized)
    ensures run.mail.Some? ==>
      run.mail.value.to == Some(toEmail)
      && run.mail.value.subject == "Portfolio Email Service Test" && run.mail.value.template.None?
  {
    var s1 := EnsureInitialized(s, env, createThrows);
    if s1.transporter.None? then SendRun(s1, NotSent(NotInitialized), None)
    else
      var m := Mail("Portfolio Test", env.from, Some(toEmail), "Portfolio Email Service Test", None, None);
      SendRun(s1, Outcome(deliver(m)), Some(m))
  }

  /**
    Without credentials nothing is ever handed to a transporter: every send reports failure with
    the not-configured message, and only the cache-free state is touched.
   */
  lemma NoCredentialsNoMail(s: Service, env: EmailEnv, createThrows: bool, c: Contact, read: Option<string>,
                            deliver: Mail -> Delivery, toEmail: string)
    requires Consistent(s) && !s.initialized && !(IsSet(env.user) && IsSet(env.pass))
    ensures var n := SendContactNotification(s, env, createThrows, c, read, deliver);
      n.mail.None? && n.result == NotSent(NotConfigured) && n.service == s
    ensures var a := SendAutoReply(s, env, createThrows, c, read, deliver);
      a.mail.None? && a.result == NotSent(NotConfigured) && a.service == s
    ensures var t := SendTestEmail(s, env, createThrows, toEmail, deliver);
      t.mail.None? && t.result == NotSent(NotInitialized)
  {
  }

  /** A send reports success exactly when a message was handed over and delivered. */
  lemma SuccessMeansDelivered(s: Service, env: EmailEnv, createThrows: bool, c: Contact,
                              read: Option<string>, deliver: Mail -> Delivery)
    ensures var n := SendContactNotification(s, env, createThrows, c, read, deliver);
      n.result.Sent? <==> n.mail.Some? && deliver(n.mail.value).Delivered?
    ensures var a := SendAutoReply(s, env, createThrows, c, read, deliver);
      a.result.Sent? <==> a.mail.Some? && deliver(a.mail.value).Delivered?
  {
  }

  /** Sending never loses the transporter or a cached template. */
  lemma SendingKeepsService(s: Service, env: EmailEnv, createThrows: bool, c: Contact,
                            read: Option<string>, deliver: Mail -> Delivery)
    requires s.initialized && s.transporter.Some?
    ensures var n := SendContactNotification(s, env, createThrows, c, read, deliver);
      n.service.transporter == s.transporter && s.templates.Keys <= n.service.templates.Keys
  {
  }

  // ---------------------------------------------------------------------------
  // getStatus and verifyConnection

  datatype StatusReport = StatusReport(initialized: bool, hasTransporter: bool, emailUser: string,
                                       emailHost: string, emailPort: string, emailFrom: string, emailTo: string)

  function Masked(v: Option<string>): (r: string)
    ensures r == "***configured***" || r == "Not set"
    ensures r == "Not set" <==> !IsSet(v)
  {
    if IsSet(v) then "***configured***" else "Not set"
  }

  function OrNotSet(v: Option<string>): (r: string)
    ensures IsSet(v) ==> r == v.value
    ensures !IsSet(v) ==> r == "Not set"
  {
    if IsSet(v) then v.value else "Not set"
  }

  /** The report names the host and port but never the user or the addresses. */
  function GetStatus(s: Service, env: EmailEnv): (r: StatusReport)
    ensures r.initialized == s.initialized && r.hasTransporter == s.transporter.Some?
    ensures forall v :: v in [r.emailUser, r.emailFrom, r.emailTo] ==> v == "***configured***" || v == "Not set"
    ensures r.emailHost == OrNotSet(env.host) && r.emailPort == OrNotSet(env.port)
  {
    StatusReport(s.initialized, s.transporter.Some?, Masked(env.user), OrNotSet(env.host), OrNotSet(env.port),
                 Masked(env.from), Masked(env.to))
  }

  /** `verifyConnection`: `false` without a transporter, else what the server check says. */
  function VerifyConnection(s: Service, env: EmailEnv, createThrows: bool, serverAnswers: bool): (res: (Service, bool))
    ensures res.0 == EnsureInitialized(s, env, createThrows)
    ensures res.1 <==> res.0.transporter.Some? && serverAnswers
  {
    var s1 := EnsureInitialized(s, env, createThrows);
    (s1, s1.transporter.Some? && serverAnswers)
  }
}
