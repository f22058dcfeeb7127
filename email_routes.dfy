/**
 * The e-mail routes: a bulk send of one plain message to a list of
 * addresses, in batches of five with a one-second pause between batches,
 * and the report on whether the mail account is configured and reachable.
 */
module EmailRoutes {
  import opened Wrappers
  import opened Text
  import opened Batching
  import opened Store
  import ES = EmailService

  const RecipientsRequired: string := "Recipients array is required"
  const SubjectAndMessageRequired: string := "Subject and message are required"
  const BulkBatchSize: nat := 5
  const BulkPause: nat := 1000
  const DefaultHost: string := "smtp.gmail.com"
  const DefaultPort: string := "587"
  const ActiveMessage: string := "Email service is active and ready"
  const NotConfiguredMessage: string := "Email service is not configured"
  const ConfigurationErrorPrefix: string := "Email service configuration error: "

  // ------------------------------------------------------------ bulk send

  /** One element of the response's `results`: the address and what the transport said. */
  datatype BulkEntry = BulkEntry(email: string, success: bool, messageId: Option<nat>, error: Option<string>)

  datatype BulkSummary = BulkSummary(total: nat, sent: nat, failed: nat, results: seq<BulkEntry>)

  /** What a bulk request asks for once its body has passed the checks. */
  datatype BulkRequest = BulkRequest(recipients: seq<string>, subject: string, message: string, timeText: string)

  /** The fixed text between a bulk mail's message and its time. */
  const BulkBodyMiddle: string := "</p><p>This is a test email from EventEye Certificate System.</p><p>Time: "

  /** The mail to one address; `timeText` is the locale rendering of the sending time. */
  function BulkMail(emailUser: Option<string>, req: BulkRequest, email: string): (m: ES.Mail)
    ensures m.to == email && m.subject == req.subject && m.attachments == []
    ensures m.fromName == ES.TestSenderName && m.fromAddress == Or(emailUser, ES.DefaultSender)
    ensures Contains(m.html, req.subject) && Contains(m.html, req.message)
  {
    var head := "<h2>" + req.subject + "</h2><p>";
    var html := head + req.message
                + BulkBodyMiddle + req.timeText + "</p>";
    assert OccursAt(html, req.subject, 4) by {
      assert html[4..4 + |req.subject|] == req.subject;
    }
    assert OccursAt(html, req.message, |head|) by {
      assert html[|head|..|head| + |req.message|] == req.message;
    }
    ES.Mail(ES.TestSenderName, Or(emailUser, ES.DefaultSender), email, req.subject, html, [])
  }

  /** The mails of the first k addresses, in address order. */
  function BulkMails(emailUser: Option<string>, req: BulkRequest, k: nat): (ms: seq<ES.Mail>)
    requires k <= |req.recipients|
    ensures |ms| == k
  {
    if k == 0 then []
    else BulkMails(emailUser, req, k - 1) + [BulkMail(emailUser, req, req.recipients[k - 1])]
  }

  /** The entry for address i: every address gets a mail, so its id is its position after `base`. */
  function EntryAt(t: ES.Transport, req: BulkRequest, base: nat, i: nat): BulkEntry
    requires i < |req.recipients|
  {
    var email := req.recipients[i];
    if email in t.refuses then BulkEntry(email, false, None, Some(t.failure))
    else BulkEntry(email, true, Some(base + i), None)
  }

  function BulkEntries(t: ES.Transport, req: BulkRequest, base: nat, k: nat): (rs: seq<BulkEntry>)
    requires k <= |req.recipients|
    ensures |rs| == k
  {
    if k == 0 then [] else BulkEntries(t, req, base, k - 1) + [EntryAt(t, req, base, k - 1)]
  }

  /** Entry i reports address i: sent with a fresh id exactly when the transport accepts that address. */
  lemma {:induction false} BulkEntriesAligned(t: ES.Transport, req: BulkRequest, base: nat, k: nat, i: nat)
    requires i < k <= |req.recipients|
    ensures var r := BulkEntries(t, req, base, k)[i];
            && r.email == req.recipients[i]
            && (r.success <==> req.recipients[i] !in t.refuses)
            && (r.success ==> r.messageId == Some(base + i) && r.error == None)
            && (!r.success ==> r.messageId == None && r.error == Some(t.failure))
    decreases k
  {
    if i < k - 1 {
      BulkEntriesAligned(t, req, base, k - 1, i);
    }
  }

  /** `results.filter(r => r.success).length`. */
  function CountSent(rs: seq<BulkEntry>): (n: nat)
    ensures n <= |rs|
  {
    if rs == [] then 0 else CountSent(rs[..|rs| - 1]) + (if rs[|rs| - 1].success then 1 else 0)
  }

  /** `results.filter(r => !r.success).length`. */
  function CountUnsent(rs: seq<BulkEntry>): (n: nat)
    ensures n <= |rs|
  {
    if rs == [] then 0 else CountUnsent(rs[..|rs| - 1]) + (if rs[|rs| - 1].success then 0 else 1)
  }

  lemma {:induction false} SentPlusUnsent(rs: seq<BulkEntry>)
    ensures CountSent(rs) + CountUnsent(rs) == |rs|
  {
    if rs != [] {
      SentPlusUnsent(rs[..|rs| - 1]);
    }
  }

  /** How many of the first k addresses the transport accepts. */
  function Accepted(t: ES.Transport, recipients: seq<string>, k: nat): nat
    requires k <= |recipients|
  {
    if k == 0 then 0 else Accepted(t, recipients, k - 1) + (if recipients[k - 1] in t.refuses then 0 else 1)
  }

  /** The number reported sent is the number of accepted addresses. */
  lemma {:induction false} SentIsAccepted(t: ES.Transport, req: BulkRequest, base: nat, k: nat)
    requires k <= |req.recipients|
    ensures CountSent(BulkEntries(t, req, base, k)) == Accepted(t, req.recipients, k)
  {
    if k > 0 {
      SentIsAccepted(t, req, base, k - 1);
      assert BulkEntries(t, req, base, k)[..k - 1] == BulkEntries(t, req, base, k - 1);
    }
  }

  /**
   * `POST /bulk`: 400 when the recipients are missing or empty, then 400 when
   * the subject or the message is empty; otherwise one mail per address and
   * the tally of what the transport accepted.
   */
  function BulkEmail(t: ES.Transport, recipients: Option<seq<string>>, subject: Option<string>,
                     message: Option<string>, timeText: string, base: nat): (r: Result<BulkSummary, Rejection>)
    ensures recipients.None? || recipients.value == [] ==> r == Err(Rejection(400, RecipientsRequired))
    ensures recipients.Some? && recipients.value != [] && !(Truthy(subject) && Truthy(message))
            ==> r == Err(Rejection(400, SubjectAndMessageRequired))
    ensures r.Ok? <==> recipients.Some? && recipients.value != [] && Truthy(subject) && Truthy(message)
    ensures r.Ok? ==> var req := BulkRequest(recipients.value, subject.value, message.value, timeText);
      && r.value.total == |recipients.value| == |r.value.results|
      && r.value.results == BulkEntries(t, req, base, |recipients.value|)
      && r.value.sent + r.value.failed == r.value.total
      && r.value.sent == Accepted(t, recipients.value, |recipients.value|)
  {
    if recipients.None? || recipients.value == [] then Err(Rejection(400, RecipientsRequired))
    else if !Truthy(subject) || !Truthy(message) then Err(Rejection(400, SubjectAndMessageRequired))
    else
      var req := BulkRequest(recipients.value, subject.value, message.value, timeText);
      var rs := BulkEntries(t, req, base, |recipients.value|);
      SentPlusUnsent(rs);
      SentIsAccepted(t, req, base, |recipients.value|);
      Ok(BulkSummary(|recipients.value|, CountSent(rs), CountUnsent(rs), rs))
  }

  /** Sends addresses lo .. hi-1 one after another. */
  method SendRange(svc: ES.EmailServiceState, req: BulkRequest, lo: nat, hi: nat,
                   ghost log: seq<ES.Mail>, soFar: seq<BulkEntry>)
    returns (results: seq<BulkEntry>)
    requires lo <= hi <= |req.recipients|
    requires soFar == BulkEntries(svc.transporter, req, |log|, lo)
    requires svc.transporter.attempts == log + BulkMails(svc.emailUser, req, lo)
    modifies svc.transporter
    ensures results == BulkEntries(svc.transporter, req, |log|, hi)
    ensures svc.transporter.attempts == log + BulkMails(svc.emailUser, req, hi)
  {
    results := soFar;
    var j := lo;
    while j < hi
      invariant lo <= j <= hi
      invariant results == BulkEntries(svc.transporter, req, |log|, j)
      invariant svc.transporter.attempts == log + BulkMails(svc.emailUser, req, j)
    {
      var email := req.recipients[j];
      var m := BulkMail(svc.emailUser, req, email);
      ConcatAssoc(log, BulkMails(svc.emailUser, req, j), [m]);
      var sent := svc.transporter.SendMail(m);
      var entry := match sent
        case Ok(id) => BulkEntry(email, true, Some(id), None)
        case Err(e) => BulkEntry(email, false, None, Some(e));
      results := results + [entry];
      j := j + 1;
    }
  }

  /**
   * The handler against the transport: the response is `BulkEmail`'s, the
   * transport's log grows by one mail per address in address order, and the
   * batches follow the five-by-five schedule.  A refused request sends nothing.
   */
  method SendBulkEmail(svc: ES.EmailServiceState, recipients: Option<seq<string>>, subject: Option<string>,
                       message: Option<string>, timeText: string)
    returns (r: Result<BulkSummary, Rejection>, trace: seq<Activity>)
    modifies svc.transporter
    ensures r == BulkEmail(svc.transporter, recipients, subject, message, timeText, |old(svc.transporter.attempts)|)
    ensures r.Err? ==> svc.transporter.attempts == old(svc.transporter.attempts) && trace == []
    ensures r.Ok? ==>
      && svc.transporter.attempts == old(svc.transporter.attempts)
           + BulkMails(svc.emailUser, BulkRequest(recipients.value, subject.value, message.value, timeText),
                       |recipients.value|)
      && trace == Schedule(|recipients.value|, BulkBatchSize, BulkPause)
  {
    if recipients.None? || recipients.value == [] {
      return Err(Rejection(400, RecipientsRequired)), [];
    }
    if !Truthy(subject) || !Truthy(message) {
      return Err(Rejection(400, SubjectAndMessageRequired)), [];
    }
    var req := BulkRequest(recipients.value, subject.value, message.value, timeText);
    var n := |req.recipients|;
    ghost var log := svc.transporter.attempts;
    var results: seq<BulkEntry> := [];
    trace := [];
    var i := 0;
    while i < n
      invariant results == BulkEntries(svc.transporter, req, |log|, Min(i, n))
      invariant svc.transporter.attempts == log + BulkMails(svc.emailUser, req, Min(i, n))
      invariant trace + ScheduleFrom(i, n, BulkBatchSize, BulkPause) == Schedule(n, BulkBatchSize, BulkPause)
      decreases n - i
    {
      var hi := Min(i + BulkBatchSize, n);
      results := SendRange(svc, req, i, hi, log, results);
      ScheduleAdvance(trace, i, n, BulkBatchSize, BulkPause);
      trace := trace + Batch(i, n, BulkBatchSize, BulkPause);
      i := i + BulkBatchSize;
    }
    ScheduleDone(trace, i, n, BulkBatchSize, BulkPause);
    SentPlusUnsent(results);
    SentIsAccepted(svc.transporter, req, |log|, n);
    r := Ok(BulkSummary(n, CountSent(results), CountUnsent(results), results));
  }

  // --------------------------------------------------------------- status

  /** The mail settings read from the environment; an unset variable is None. */
  datatype MailEnv = MailEnv(user: Option<string>, pass: Option<string>, host: Option<string>, port: Option<string>)

  datatype StatusReport = StatusReport(
    status: string, message: string, configured: bool, host: string, port: string, user: string)

  /** The transport's connection check; `error` is the message it fails with, if it fails. */
  class SmtpProbe {
    const error: Option<string>
    var probes: nat

    constructor(error: Option<string>)
      ensures this.error == error && probes == 0
    {
      this.error := error;
      probes := 0;
    }

    method Verify() returns (r: Option<string>)
      modifies this
      ensures r == error && probes == old(probes) + 1
    {
      r := error;
      probes := probes + 1;
    }
  }

  /** `!!(EMAIL_USER && EMAIL_PASS)`. */
  predicate Configured(env: MailEnv) {
    Truthy(env.user) && Truthy(env.pass)
  }

  /**
   * `GET /status` given what the connection check would answer: `active`
   * exactly when configured and the check passes, `error` with the check's
   * message when configured and it fails, `not_configured` otherwise.
   */
  function Status(env: MailEnv, probeError: Option<string>): (r: StatusReport)
    ensures r.configured <==> Configured(env)
    ensures r.status == "active" <==> Configured(env) && probeError.None?
    ensures r.status == "error" <==> Configured(env) && probeError.Some?
    ensures r.status == "not_configured" <==> !Configured(env)
    ensures r.status == "active" ==> r.message == ActiveMessage
    ensures r.status == "not_configured" ==> r.message == NotConfiguredMessage
    ensures r.status == "error" ==> r.message == ConfigurationErrorPrefix + probeError.value
    ensures r.configured ==> r.user == "configured"
    ensures r.user == "configured" <==> Truthy(env.user)
    ensures r.host == Or(env.host, DefaultHost) && r.port == Or(env.port, DefaultPort)
  {
    var user := if Truthy(env.user) then "configured" else "not_configured";
    var base := StatusReport("not_configured", NotConfiguredMessage, Configured(env),
                             Or(env.host, DefaultHost), Or(env.port, DefaultPort), user);
    if !Configured(env) then base
    else match probeError
      case None => base.(status := "active", message := ActiveMessage)
      case Some(e) => base.(status := "error", message := ConfigurationErrorPrefix + e)
  }

  /** The handler: the connection is checked once when configured and never otherwise. */
  method EmailStatus(env: MailEnv, probe: SmtpProbe) returns (r: StatusReport)
    modifies probe
    ensures r == Status(env, probe.error)
    ensures probe.probes == old(probe.probes) + (if Configured(env) then 1 else 0)
  {
    var probeError: Option<string> := None;
    if Configured(env) {
      probeError := probe.Verify();
    }
    r := Status(env, probeError);
  }
}
