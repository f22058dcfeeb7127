/**
 * The delivery orchestrator: for each participant it decides which channels
 * to use from the data present and the option flags, sends through the email
 * and chat adapters, merges the two outcomes with a logical OR, and runs the
 * roster in batches.
 */
module MessagingService {
  import opened Wrappers
  import opened Text
  import opened Batching
  import opened EventModel
  import opened EmailService
  import opened WhatsAppService

  const DefaultBatchSize: nat := 5
  /** The pause between two batches, in milliseconds. */
  const OrchestratorPause: nat := 3000
  const DefaultTestText: string := "\U{1F9EA} Test message from EventEye Certificate Automation System"
  const TestEmailSent: string := "Test email sent successfully"
  const TestEmailFailed: string := "Failed to send test email"
  const TestChatSent: string := "Test WhatsApp message sent successfully"
  const TestNotRegistered: string := "Phone number is not registered on WhatsApp"
  const InvalidTest: string := "Invalid message type or recipient format"

  /** The participant fields the orchestrator reads: `name`, `email` and `phoneNumber`. */
  datatype Recipient = Recipient(name: string, email: Option<string>, phoneNumber: Option<string>)

  /**
   * `sendEmail` and `sendWhatsApp` are the flags as given (`None` when
   * absent); a `batchSize` of 0 stands for an absent one.
   */
  datatype Options = Options(sendEmail: Option<bool>, sendWhatsApp: Option<bool>, batchSize: int,
                             emailTemplate: Option<CustomTemplate>)

  /** `{email, whatsapp, success}`, plus `participant` and `error` on a generation failure. */
  datatype DeliveryResult = DeliveryResult(email: Option<EmailResult>, whatsapp: Option<SendResult>,
                                           success: bool, participant: Option<Recipient>,
                                           error: Option<string>)

  /** The event fields the orchestrator reads. */
  datatype DeliveryEvent = DeliveryEvent(mail: MailEvent)

  datatype ServiceStatus = ServiceStatus(emailAvailable: bool, emailReady: bool,
                                         whatsappAvailable: bool, whatsappReady: bool,
                                         qrCode: Option<string>)

  datatype TestResult = TestResult(success: bool, message: string, error: Option<string>)

  predicate EmailLeg(p: Recipient, options: Options) {
    Truthy(p.email) && options.sendEmail != Some(false)
  }

  predicate ChatLeg(p: Recipient, options: Options) {
    Truthy(p.phoneNumber) && options.sendWhatsApp != Some(false)
  }

  /** `options.batchSize || 5` as written: only 0 falls back, a negative size is kept. */
  function SourceBatchSize(options: Options): (size: int)
    ensures options.batchSize == 0 ==> size == DefaultBatchSize
    ensures options.batchSize != 0 ==> size == options.batchSize
  {
    if options.batchSize == 0 then DefaultBatchSize else options.batchSize
  }

  /** Where the loop `for (i = 0; …; i += batchSize)` starts its k-th round. */
  function RoundStart(size: int, k: nat): int {
    if k == 0 then 0 else RoundStart(size, k - 1) + size
  }

  /**
   * With a negative size the loop index never grows, so the loop guard
   * `i < participants.length` holds in every round of a non-empty roster:
   * the loop never ends.
   */
  lemma {:induction false} NegativeBatchSizeNeverEnds(options: Options, n: nat, k: nat)
    requires options.batchSize < 0 && n > 0
    ensures SourceBatchSize(options) < 0
    ensures RoundStart(SourceBatchSize(options), k) <= 0 < n
  {
    if k > 0 {
      NegativeBatchSizeNeverEnds(options, n, k - 1);
    }
  }

  /**
   * The batch size the loop needs: `options.batchSize` when positive,
   * otherwise 5, so every round moves the index forward.
   */
  function BatchSizeOf(options: Options): (size: nat)
    ensures size > 0
    ensures options.batchSize <= 0 ==> size == DefaultBatchSize
    ensures options.batchSize > 0 ==> size == options.batchSize
  {
    if options.batchSize <= 0 then DefaultBatchSize else options.batchSize
  }

  /** The corrected size agrees with the source's wherever the source's loop ends. */
  lemma BatchSizeAgrees(options: Options)
    requires options.batchSize >= 0
    ensures BatchSizeOf(options) == SourceBatchSize(options)
    ensures RoundStart(BatchSizeOf(options), 1) > 0
  {
  }

  /**
   * What the orchestrator reads from a roster participant: the roster stores the
   * number as `phone`, so `phoneNumber` is absent.
   */
  function FromRoster(p: Participant): Recipient {
    Recipient(p.name, Some(p.email), None)
  }

  /** Roster participants never get the chat leg, whatever the options say. */
  lemma RosterHasNoChatLeg(p: Participant, options: Options)
    ensures !ChatLeg(FromRoster(p), options)
    ensures p.email != "" && options.sendEmail != Some(false) ==> EmailLeg(FromRoster(p), options)
  {
  }

  class MessagingServiceState {
    const email: EmailServiceState
    const whatsapp: WhatsAppServiceState

    constructor(email: EmailServiceState, whatsapp: WhatsAppServiceState)
      ensures this.email == email && this.whatsapp == whatsapp
    {
      this.email := email;
      this.whatsapp := whatsapp;
    }

    function Contact(p: Recipient): Contact
      requires p.email.Some?
    {
      EmailService.Contact(p.name, p.email.value)
    }

    function ChatFor(p: Recipient, certificatePath: string, eventData: DeliveryEvent): ChatDelivery
      requires p.phoneNumber.Some?
    {
      ChatDelivery(p.phoneNumber.value, certificatePath, p.name, eventData.mail.title)
    }

    /** The mails one send hands to the transport. */
    function MailsOf(p: Recipient, certificatePath: string, eventData: DeliveryEvent, options: Options): (ms: seq<Mail>)
      ensures |ms| == if EmailLeg(p, options) then 1 else 0
    {
      if EmailLeg(p, options)
      then [email.CertificateMail(Contact(p), certificatePath, eventData.mail, options.emailTemplate)]
      else []
    }

    /** The chat client calls one send makes. */
    function ChatCallsOf(c: ChatClient?, ready: bool, p: Recipient, certificatePath: string,
                         eventData: DeliveryEvent, options: Options): seq<ClientCall>
    {
      if ChatLeg(p, options) then SendCalls(c, ready, ChatFor(p, certificatePath, eventData)) else []
    }

    /**
     * The merged result of one send when `sent` mails were logged before it:
     * each leg is present exactly when attempted, and the whole succeeds when
     * an attempted leg did.
     */
    function Outcome(c: ChatClient?, ready: bool, p: Recipient, certificatePath: string,
                     eventData: DeliveryEvent, options: Options, sent: nat): (r: DeliveryResult)
      ensures r.email.Some? <==> EmailLeg(p, options)
      ensures r.whatsapp.Some? <==> ChatLeg(p, options)
      ensures r.success <==> (r.email.Some? && r.email.value.success) || (r.whatsapp.Some? && r.whatsapp.value.success)
      ensures r.email.Some? ==> r.email.value == email.SendOutcome(Contact(p), sent)
      ensures r.whatsapp.Some? ==>
        r.whatsapp.value == SendOutcome(c, ready, ChatFor(p, certificatePath, eventData))
      ensures !EmailLeg(p, options) && !ChatLeg(p, options) ==> !r.success
      ensures r.participant.None? && r.error.None?
    {
      var e := if EmailLeg(p, options) then Some(email.SendOutcome(Contact(p), sent)) else None;
      var w := if ChatLeg(p, options)
               then Some(SendOutcome(c, ready, ChatFor(p, certificatePath, eventData)))
               else None;
      DeliveryResult(e, w, (e.Some? && e.value.success) || (w.Some? && w.value.success), None, None)
    }

    predicate Valid()
      reads this, whatsapp
    {
      whatsapp.Valid()
    }

    method SendCertificate(p: Recipient, certificatePath: string, eventData: DeliveryEvent, options: Options)
      returns (r: DeliveryResult)
      requires Valid()
      modifies email.transporter, whatsapp.client
      ensures r == Outcome(whatsapp.client, whatsapp.isReady, p, certificatePath, eventData, options,
                           |old(email.transporter.attempts)|)
      ensures email.transporter.attempts == old(email.transporter.attempts) + MailsOf(p, certificatePath, eventData, options)
      ensures whatsapp.client != null ==>
        whatsapp.client.calls == old(whatsapp.client.calls)
                                 + ChatCallsOf(whatsapp.client, whatsapp.isReady, p, certificatePath, eventData, options)
    {
      var e: Option<EmailResult> := None;
      var w: Option<SendResult> := None;
      if EmailLeg(p, options) {
        var er := email.SendCertificateEmail(Contact(p), certificatePath, eventData.mail, options.emailTemplate);
        e := Some(er);
      }
      if ChatLeg(p, options) {
        var d := ChatFor(p, certificatePath, eventData);
        var wr := whatsapp.SendCertificate(d.phoneNumber, d.certificatePath, d.participantName, d.eventTitle);
        w := Some(wr);
      }
      r := DeliveryResult(e, w, (e.Some? && e.value.success) || (w.Some? && w.value.success), None, None);
    }

    /** The failure entry for a participant without a successful certificate. */
    static function GenerationFailure(p: Recipient): DeliveryResult {
      DeliveryResult(None, None, false, Some(p), Some(EmailService.GenerationFailed))
    }

    function BulkMails(ps: seq<Recipient>, certificates: seq<CertificateSlot>, eventData: DeliveryEvent,
                       options: Options, k: nat): (ms: seq<Mail>)
      requires k <= |ps|
    {
      if k == 0 then []
      else BulkMails(ps, certificates, eventData, options, k - 1)
           + (if EmailServiceState.HasCertificate(certificates, k - 1)
              then MailsOf(ps[k - 1], certificates[k - 1].filePath, eventData, options) else [])
    }

    function BulkCalls(c: ChatClient?, ready: bool, ps: seq<Recipient>, certificates: seq<CertificateSlot>,
                       eventData: DeliveryEvent, options: Options, k: nat): seq<ClientCall>
      requires k <= |ps|
    {
      if k == 0 then []
      else BulkCalls(c, ready, ps, certificates, eventData, options, k - 1)
           + (if EmailServiceState.HasCertificate(certificates, k - 1)
              then ChatCallsOf(c, ready, ps[k - 1], certificates[k - 1].filePath, eventData, options) else [])
    }

    function BulkResultAt(c: ChatClient?, ready: bool, ps: seq<Recipient>, certificates: seq<CertificateSlot>,
                          eventData: DeliveryEvent, options: Options, base: nat, i: nat): DeliveryResult
      requires i < |ps|
    {
      if EmailServiceState.HasCertificate(certificates, i)
      then Outcome(c, ready, ps[i], certificates[i].filePath, eventData, options,
                   base + |BulkMails(ps, certificates, eventData, options, i)|)
      else GenerationFailure(ps[i])
    }

    function BulkResults(c: ChatClient?, ready: bool, ps: seq<Recipient>, certificates: seq<CertificateSlot>,
                         eventData: DeliveryEvent, options: Options, base: nat, k: nat): (rs: seq<DeliveryResult>)
      requires k <= |ps|
      ensures |rs| == k
    {
      if k == 0 then []
      else BulkResults(c, ready, ps, certificates, eventData, options, base, k - 1)
           + [BulkResultAt(c, ready, ps, certificates, eventData, options, base, k - 1)]
    }

    /**
     * Result i belongs to participant i: a missing or unsuccessful certificate
     * at index i gives `Certificate generation failed` with both legs absent;
     * otherwise it is the merged outcome of that participant's own send.
     */
    lemma {:induction false} BulkResultsAligned(c: ChatClient?, ready: bool, ps: seq<Recipient>, certificates: seq<CertificateSlot>,
                                                eventData: DeliveryEvent, options: Options,
                                                base: nat, k: nat, i: nat)
      requires i < k <= |ps|
      ensures var r := BulkResults(c, ready, ps, certificates, eventData, options, base, k)[i];
              && r == BulkResultAt(c, ready, ps, certificates, eventData, options, base, i)
              && (!EmailServiceState.HasCertificate(certificates, i) ==>
                    r == GenerationFailure(ps[i]) && r.email.None? && r.whatsapp.None? && !r.success)
              && (EmailServiceState.HasCertificate(certificates, i) ==>
                    (r.email.Some? <==> EmailLeg(ps[i], options)) && (r.whatsapp.Some? <==> ChatLeg(ps[i], options)))
      decreases k
    {
      if i < k - 1 {
        BulkResultsAligned(c, ready, ps, certificates, eventData, options, base, k - 1, i);
      }
    }

    /** Participant j of the bulk send: its own send, or the generation failure entry. */
    method SendAt(ps: seq<Recipient>, certificates: seq<CertificateSlot>, eventData: DeliveryEvent,
                  options: Options, j: nat, ghost mails: seq<Mail>, ghost chat: seq<ClientCall>)
      returns (r: DeliveryResult)
      requires Valid()
      requires j < |ps|
      requires email.transporter.attempts == mails + BulkMails(ps, certificates, eventData, options, j)
      requires whatsapp.client != null ==>
        whatsapp.client.calls == chat + BulkCalls(whatsapp.client, whatsapp.isReady, ps, certificates, eventData, options, j)
      modifies email.transporter, whatsapp.client
      ensures r == BulkResultAt(whatsapp.client, whatsapp.isReady, ps, certificates, eventData, options, |mails|, j)
      ensures email.transporter.attempts == mails + BulkMails(ps, certificates, eventData, options, j + 1)
      ensures whatsapp.client != null ==>
        whatsapp.client.calls == chat + BulkCalls(whatsapp.client, whatsapp.isReady, ps, certificates, eventData, options, j + 1)
    {
      var c := whatsapp.client;
      var ready := whatsapp.isReady;
      ghost var m0 := BulkMails(ps, certificates, eventData, options, j);
      ghost var c0 := BulkCalls(c, ready, ps, certificates, eventData, options, j);
      if EmailServiceState.HasCertificate(certificates, j) {
        r := SendCertificate(ps[j], certificates[j].filePath, eventData, options);
        ConcatAssoc(mails, m0, MailsOf(ps[j], certificates[j].filePath, eventData, options));
        ConcatAssoc(chat, c0, ChatCallsOf(c, ready, ps[j], certificates[j].filePath, eventData, options));
      } else {
        r := GenerationFailure(ps[j]);
        assert m0 + [] == m0 && c0 + [] == c0;
      }
    }

    method SendBatch(ps: seq<Recipient>, certificates: seq<CertificateSlot>, eventData: DeliveryEvent,
                     options: Options, lo: nat, hi: nat, ghost mails: seq<Mail>,
                     ghost chat: seq<ClientCall>, soFar: seq<DeliveryResult>)
      returns (results: seq<DeliveryResult>)
      requires Valid()
      requires lo <= hi <= |ps|
      requires soFar == BulkResults(whatsapp.client, whatsapp.isReady, ps, certificates, eventData, options, |mails|, lo)
      requires email.transporter.attempts == mails + BulkMails(ps, certificates, eventData, options, lo)
      requires whatsapp.client != null ==>
        whatsapp.client.calls == chat + BulkCalls(whatsapp.client, whatsapp.isReady, ps, certificates, eventData, options, lo)
      modifies email.transporter, whatsapp.client
      ensures results == BulkResults(whatsapp.client, whatsapp.isReady, ps, certificates, eventData, options, |mails|, hi)
      ensures email.transporter.attempts == mails + BulkMails(ps, certificates, eventData, options, hi)
      ensures whatsapp.client != null ==>
        whatsapp.client.calls == chat + BulkCalls(whatsapp.client, whatsapp.isReady, ps, certificates, eventData, options, hi)
    {
      var c := whatsapp.client;
      var ready := whatsapp.isReady;
      results := soFar;
      var j := lo;
      while j < hi
        invariant lo <= j <= hi
        invariant results == BulkResults(c, ready, ps, certificates, eventData, options, |mails|, j)
        invariant email.transporter.attempts == mails + BulkMails(ps, certificates, eventData, options, j)
        invariant c != null ==> c.calls == chat + BulkCalls(c, ready, ps, certificates, eventData, options, j)
      {
        var r := SendAt(ps, certificates, eventData, options, j, mails, chat);
        results := results + [r];
        j := j + 1;
      }
    }

    /** Batches of `options.batchSize || 5`, one after the other, with a pause between two batches. */
    method SendBulkCertificates(ps: seq<Recipient>, certificates: seq<CertificateSlot>,
                                eventData: DeliveryEvent, options: Options)
      returns (results: seq<DeliveryResult>, trace: seq<Activity>)
      requires Valid()
      modifies email.transporter, whatsapp.client
      ensures results == BulkResults(whatsapp.client, whatsapp.isReady, ps, certificates, eventData, options,
                                     |old(email.transporter.attempts)|, |ps|)
      ensures email.transporter.attempts == old(email.transporter.attempts) + BulkMails(ps, certificates, eventData, options, |ps|)
      ensures whatsapp.client != null ==>
        whatsapp.client.calls == old(whatsapp.client.calls)
                                 + BulkCalls(whatsapp.client, whatsapp.isReady, ps, certificates, eventData, options, |ps|)
      ensures trace == Schedule(|ps|, BatchSizeOf(options), OrchestratorPause)
    {
      var n := |ps|;
      var size := BatchSizeOf(options);
      var c := whatsapp.client;
      var ready := whatsapp.isReady;
      ghost var mails := email.transporter.attempts;
      ghost var chat := if c == null then [] else c.calls;
      results := [];
      trace := [];
      var i := 0;
      while i < n
        invariant results == BulkResults(c, ready, ps, certificates, eventData, options, |mails|, Min(i, n))
        invariant email.transporter.attempts == mails + BulkMails(ps, certificates, eventData, options, Min(i, n))
        invariant c != null ==> c.calls == chat + BulkCalls(c, ready, ps, certificates, eventData, options, Min(i, n))
        invariant trace + ScheduleFrom(i, n, size, OrchestratorPause) == Schedule(n, size, OrchestratorPause)
        decreases n - i
      {
        var hi := Min(i + size, n);
        results := SendBatch(ps, certificates, eventData, options, i, hi, mails, chat, results);
        ScheduleAdvance(trace, i, n, size, OrchestratorPause);
        trace := trace + Batch(i, n, size, OrchestratorPause);
        i := i + size;
      }
      ScheduleDone(trace, i, n, size, OrchestratorPause);
    }

    /** The transport is always there (a mock replaces a failed one); the chat side reports its session. */
    function GetServiceStatus(): (s: ServiceStatus)
      reads this, whatsapp
      ensures s.emailAvailable && s.emailReady
      ensures s.whatsappAvailable == whatsapp.View().hasClient
      ensures s.whatsappReady == whatsapp.IsClientReady() && s.qrCode == whatsapp.GetQRCode()
      ensures Valid() ==> (s.whatsappReady ==> s.whatsappAvailable)
    {
      ServiceStatus(true, true, whatsapp.client != null, whatsapp.IsClientReady(), whatsapp.GetQRCode())
    }

    /** The email branch of a test message. */
    method TestEmailMessage(recipient: string, timeText: string) returns (r: TestResult)
      modifies email.transporter
      ensures email.transporter.attempts == old(email.transporter.attempts) + [email.TestMail(recipient, timeText)]
      ensures r == EmailTestOutcome(email.transporter, recipient)
      ensures whatsapp.client != null ==> whatsapp.client.calls == old(whatsapp.client.calls)
    {
      var sent := email.SendTestEmail(recipient, timeText);
      r := TestResult(sent.Ok?, if sent.Ok? then TestEmailSent else TestEmailFailed,
                      if sent.Ok? then None else Some(sent.error));
    }

    /** The chat branch of a test message. */
    method TestChatMessage(recipient: string, message: Option<string>) returns (r: TestResult)
      requires Valid()
      modifies whatsapp.client
      ensures r == ChatTestOutcome(whatsapp.client, whatsapp.isReady, recipient)
      ensures whatsapp.client != null ==>
        whatsapp.client.calls == old(whatsapp.client.calls) + ChatTestCalls(whatsapp.client, whatsapp.isReady, recipient, message)
      ensures email.transporter.attempts == old(email.transporter.attempts)
    {
      if !whatsapp.isReady {
        return TestResult(false, "", Some(NotReadyError));
      }
      var id := FormatPhoneNumber(recipient);
      var registered := whatsapp.client.IsRegistered(id);
      if !registered {
        return TestResult(false, "", Some(TestNotRegistered));
      }
      var ok := whatsapp.client.SendMessage(id, Or(message, DefaultTestText));
      if !ok {
        return TestResult(false, "", Some(whatsapp.client.failure));
      }
      r := TestResult(true, TestChatSent, None);
    }

    /**
     * A test message: `email` with an `@` in the recipient goes by mail,
     * `whatsapp` by chat, and anything else is refused without a send.
     */
    method SendTestMessage(kind: string, recipient: string, message: Option<string>, timeText: string)
      returns (r: TestResult)
      requires Valid()
      modifies email.transporter, whatsapp.client
      ensures r == TestOutcome(email.transporter, whatsapp.client, whatsapp.isReady, kind, recipient)
      ensures email.transporter.attempts == old(email.transporter.attempts)
        + (if TestRouteOf(kind, recipient) == ByEmail then [email.TestMail(recipient, timeText)] else [])
      ensures whatsapp.client != null ==>
        whatsapp.client.calls == old(whatsapp.client.calls)
        + (if TestRouteOf(kind, recipient) == ByChat
           then ChatTestCalls(whatsapp.client, whatsapp.isReady, recipient, message) else [])
    {
      if kind == "email" && '@' in recipient {
        r := TestEmailMessage(recipient, timeText);
      } else if kind == "whatsapp" {
        r := TestChatMessage(recipient, message);
      } else {
        r := TestResult(false, "", Some(InvalidTest));
      }
      assert email.transporter.attempts + [] == email.transporter.attempts;
      assert whatsapp.client != null ==> whatsapp.client.calls + [] == whatsapp.client.calls;
    }
  }

  // ---------------------------------------------------------- test messages

  datatype TestRoute = ByEmail | ByChat | Refused

  /** `email` needs an `@` in the recipient; the check for `whatsapp` comes second. */
  function TestRouteOf(kind: string, recipient: string): (route: TestRoute)
    ensures route == ByEmail <==> kind == "email" && '@' in recipient
    ensures route == ByChat <==> kind == "whatsapp"
    ensures route == Refused <==> kind != "whatsapp" && !(kind == "email" && '@' in recipient)
  {
    if kind == "email" && '@' in recipient then ByEmail
    else if kind == "whatsapp" then ByChat
    else Refused
  }

  function EmailTestOutcome(t: Transport, recipient: string): (r: TestResult)
    ensures r.success <==> recipient !in t.refuses
    ensures r.message == if r.success then TestEmailSent else TestEmailFailed
    ensures r.success ==> r.error.None?
    ensures !r.success ==> r.error == Some(t.failure)
  {
    if recipient in t.refuses then TestResult(false, TestEmailFailed, Some(t.failure))
    else TestResult(true, TestEmailSent, None)
  }

  /** Not ready and unregistered both fail before anything is sent. */
  function ChatTestOutcome(c: ChatClient?, ready: bool, recipient: string): (r: TestResult)
    ensures !ready ==> r == TestResult(false, "", Some(NotReadyError))
    ensures ready && c != null && FormatPhoneNumber(recipient) !in c.registered ==>
      r == TestResult(false, "", Some(TestNotRegistered))
    ensures r.success <==> ready && c != null && FormatPhoneNumber(recipient) in c.registered
                           && FormatPhoneNumber(recipient) !in c.refusesText
    ensures r.success ==> r == TestResult(true, TestChatSent, None)
    ensures (ready && c != null && FormatPhoneNumber(recipient) in c.registered
             && FormatPhoneNumber(recipient) in c.refusesText) ==> r == TestResult(false, "", Some(c.failure))
  {
    var id := FormatPhoneNumber(recipient);
    if !ready || c == null then TestResult(false, "", Some(NotReadyError))
    else if id !in c.registered then TestResult(false, "", Some(TestNotRegistered))
    else if id in c.refusesText then TestResult(false, "", Some(c.failure))
    else TestResult(true, TestChatSent, None)
  }

  /** No call when not ready; the lookup; the text (`message || default`) only to a registered id. */
  function ChatTestCalls(c: ChatClient?, ready: bool, recipient: string, message: Option<string>): (calls: seq<ClientCall>)
    ensures !ready ==> calls == []
    ensures ready && c != null ==> |calls| >= 1 && calls[0] == IsRegisteredUser(FormatPhoneNumber(recipient))
    ensures |calls| == 2 <==> ready && c != null && FormatPhoneNumber(recipient) in c.registered
    ensures |calls| == 2 ==> calls[1] == SendText(FormatPhoneNumber(recipient), Or(message, DefaultTestText))
  {
    var id := FormatPhoneNumber(recipient);
    if !ready || c == null then []
    else if id !in c.registered then [IsRegisteredUser(id)]
    else [IsRegisteredUser(id), SendText(id, Or(message, DefaultTestText))]
  }

  function TestOutcome(t: Transport, c: ChatClient?, ready: bool, kind: string, recipient: string): (r: TestResult)
    ensures TestRouteOf(kind, recipient) == Refused ==> r == TestResult(false, "", Some(InvalidTest))
  {
    match TestRouteOf(kind, recipient)
    case ByEmail => EmailTestOutcome(t, recipient)
    case ByChat => ChatTestOutcome(c, ready, recipient)
    case Refused => TestResult(false, "", Some(InvalidTest))
  }
}
