/**
 * The email adapter: the certificate mail (sender, subject, body, attachment),
 * a send that always returns a result, and the batched bulk send that pairs
 * the i-th participant with the i-th certificate. The SMTP transport is an
 * injected `Transport` that refuses a fixed set of addresses and logs every
 * mail handed to it.
 */
module EmailService {
  import opened Wrappers
  import opened Text
  import opened Batching

  const SenderName: string := "EventEye Certificate System"
  const TestSenderName: string := "EventEye Test"
  const DefaultSender: string := "noreply@eventeye.com"
  const DefaultClientUrl: string := "http://localhost:3000"
  const GenerationFailed: string := "Certificate generation failed"
  const AttachmentCid: string := "certificate"
  const TestSubject: string := "EventEye Email Test"
  const BatchSize: nat := 10
  /** The pause between two batches, in milliseconds. */
  const BatchPause: nat := 2000

  /** The participant fields the mail reads. */
  datatype Contact = Contact(name: string, email: string)

  datatype CustomTemplate = CustomTemplate(subject: Option<string>, body: Option<string>)

  /** The event fields the mail reads; `displayDate` is the locale rendering of the event date. */
  datatype MailEvent = MailEvent(title: string, organizerName: string, displayDate: string, location: string)

  datatype Attachment = Attachment(filename: string, path: string, cid: string)

  datatype Mail = Mail(fromName: string, fromAddress: string, to: string, subject: string,
                       html: string, attachments: seq<Attachment>)

  /** `{success, messageId, participant}` or `{success: false, error, participant}`. */
  datatype EmailResult = EmailResult(success: bool, messageId: Option<nat>, error: Option<string>,
                                     participant: Contact)

  /** A certificate slot of the bulk input: `{success, certificate: {filePath}}`. */
  datatype CertificateSlot = CertificateSlot(success: bool, filePath: string)

  /** The SMTP transport, refusing a fixed set of recipients; every mail handed over is logged. */
  class Transport {
    const refuses: set<string>
    /** The message of every error the transport raises. */
    const failure: string
    var attempts: seq<Mail>

    constructor(refuses: set<string>, failure: string)
      ensures this.refuses == refuses && this.failure == failure && attempts == []
    {
      this.refuses := refuses;
      this.failure := failure;
      attempts := [];
    }

    /** When the mail is accepted, the message id is the mail's position in the log. */
    method SendMail(m: Mail) returns (r: Result<nat, string>)
      modifies this
      ensures attempts == old(attempts) + [m]
      ensures m.to !in refuses ==> r == Ok(|old(attempts)|)
      ensures m.to in refuses ==> r == Err(failure)
    {
      r := if m.to in refuses then Err(failure) else Ok(|attempts|);
      attempts := attempts + [m];
    }
  }

  // ------------------------------------------------------- mail contents

  /** `customTemplate?.subject || 'Your Certificate - ' + title`. */
  function Subject(custom: Option<CustomTemplate>, title: string): (s: string)
    ensures custom.Some? && Truthy(custom.value.subject) ==> s == custom.value.subject.value
    ensures !(custom.Some? && Truthy(custom.value.subject)) ==> s == "Your Certificate - " + title
    ensures s != ""
  {
    if custom.Some? && Truthy(custom.value.subject) then custom.value.subject.value
    else "Your Certificate - " + title
  }

  /**
   * `Certificate_<name>.png` with every whitespace run of the name turned into
   * one underscore: the file name has no whitespace, and a name without
   * whitespace is kept as it is.
   */
  function AttachmentFileName(name: string): (f: string)
    ensures var stem := ReplaceSpaceRuns(name, "_");
            f == "Certificate_" + stem + ".png" && NoSpace(stem)
    ensures NoSpace(name) ==> f == "Certificate_" + name + ".png"
  {
    ReplaceSpaceRunsNoSpace(name, "_");
    if NoSpace(name) then ReplaceSpaceRunsIdentity(name, "_"); "Certificate_" + ReplaceSpaceRuns(name, "_") + ".png"
    else "Certificate_" + ReplaceSpaceRuns(name, "_") + ".png"
  }

  /** The five placeholder substitutions, each over the whole text, in this order. */
  function FillPlaceholders(body: string, name: string, eventTitle: string, organizerName: string,
                            displayDate: string, location: string): string
  {
    var s1 := ReplaceAll(body, "{name}", name);
    var s2 := ReplaceAll(s1, "{eventTitle}", eventTitle);
    var s3 := ReplaceAll(s2, "{organizerName}", organizerName);
    var s4 := ReplaceAll(s3, "{eventDate}", displayDate);
    ReplaceAll(s4, "{location}", location)
  }

  /** The same five substitutions as a list of (placeholder, value) pairs, in the order they run. */
  function Substitutions(name: string, eventTitle: string, organizerName: string, displayDate: string,
                         location: string): seq<(string, string)>
  {
    [("{name}", name), ("{eventTitle}", eventTitle), ("{organizerName}", organizerName),
     ("{eventDate}", displayDate), ("{location}", location)]
  }

  /** The five chained substitutions are the list of substitutions applied one after another. */
  lemma FillPlaceholdersInSequence(body: string, name: string, eventTitle: string, organizerName: string,
                                   displayDate: string, location: string)
    ensures var subs := Substitutions(name, eventTitle, organizerName, displayDate, location);
            (forall i :: 0 <= i < |subs| ==> subs[i].0 != "")
            && FillPlaceholders(body, name, eventTitle, organizerName, displayDate, location)
               == ReplaceEach(body, subs)
  {
    var subs := Substitutions(name, eventTitle, organizerName, displayDate, location);
    var s1 := ReplaceAll(body, "{name}", name);
    var s2 := ReplaceAll(s1, "{eventTitle}", eventTitle);
    var s3 := ReplaceAll(s2, "{organizerName}", organizerName);
    var s4 := ReplaceAll(s3, "{eventDate}", displayDate);
    var s5 := ReplaceAll(s4, "{location}", location);
    assert subs[1..][1..][1..][1..][1..] == [];
    assert ReplaceEach(s5, []) == s5;
    assert ReplaceEach(s4, subs[1..][1..][1..][1..]) == s5;
    assert ReplaceEach(s3, subs[1..][1..][1..]) == s5;
    assert ReplaceEach(s2, subs[1..][1..]) == s5;
    assert ReplaceEach(s1, subs[1..]) == s5;
  }

  /** With values free of `{`, the substitutions are placeholder substitutions, and tell each other apart. */
  lemma SubstitutionsBracketed(name: string, eventTitle: string, organizerName: string, displayDate: string,
                               location: string)
    requires '{' !in name && '{' !in eventTitle && '{' !in organizerName && '{' !in displayDate
             && '{' !in location
    ensures var subs := Substitutions(name, eventTitle, organizerName, displayDate, location);
            Bracketed(subs) && forall k, i :: 0 <= i < k < |subs| ==> Differ(subs[k].0, subs[i].0)
  {
    var subs := Substitutions(name, eventTitle, organizerName, displayDate, location);
    forall i | 0 <= i < |subs|
      ensures subs[i].0 != "" && subs[i].0[0] == '{' && '{' !in subs[i].0[1..] && '{' !in subs[i].1
    {
      var p := subs[i].0;
      assert forall j :: 1 <= j < |p| ==> p[j] != '{';
      assert forall c :: c in p[1..] ==> exists j :: 1 <= j < |p| && p[j] == c by {
        forall c | c in p[1..] ensures exists j :: 1 <= j < |p| && p[j] == c {
          var m :| 0 <= m < |p[1..]| && p[1..][m] == c;
          assert p[m + 1] == c;
        }
      }
    }
    forall k, i | 0 <= i < k < |subs| ensures Differ(subs[k].0, subs[i].0) {
      var w := if k == 3 && i == 1 then 6 else 1;
      assert subs[k].0[w] != subs[i].0[w];
    }
  }

  /**
   * A custom body is filled in placeholder by placeholder: with values free of
   * `{`, a placeholder that follows `{`-free text becomes its value, and the
   * text after it is filled in as if on its own.
   */
  lemma FillPlaceholdersReplaces(a: string, b: string, k: nat, name: string, eventTitle: string,
                                 organizerName: string, displayDate: string, location: string)
    requires k < 5 && '{' !in a
    requires '{' !in name && '{' !in eventTitle && '{' !in organizerName && '{' !in displayDate
             && '{' !in location
    ensures var subs := Substitutions(name, eventTitle, organizerName, displayDate, location);
            FillPlaceholders(a + subs[k].0 + b, name, eventTitle, organizerName, displayDate, location)
            == a + subs[k].1 + FillPlaceholders(b, name, eventTitle, organizerName, displayDate, location)
  {
    var subs := Substitutions(name, eventTitle, organizerName, displayDate, location);
    SubstitutionsBracketed(name, eventTitle, organizerName, displayDate, location);
    FillPlaceholdersInSequence(a + subs[k].0 + b, name, eventTitle, organizerName, displayDate, location);
    FillPlaceholdersInSequence(b, name, eventTitle, organizerName, displayDate, location);
    ReplaceEachReplaces(a, b, subs, k);
  }

  /** The pieces of the fixed HTML body between the fields it interpolates. */
  const HtmlHead: string := "<!DOCTYPE html><html><body><div class=\"greeting\">"
  const HtmlEvent: string := "</div><p><strong>Event:</strong> "
  const HtmlDate: string := "</p><p><strong>Date:</strong> "
  const HtmlLocation: string := "</p><p><strong>Location:</strong> "
  const HtmlOrganizer: string := "</p><p><strong>Organizer:</strong> "
  const HtmlVerify: string := "</p><p>For verification, visit: <a href=\""
  const HtmlTail: string := "/verify\">Verify Certificate</a></p></body></html>"

  /** The fixed HTML body, abbreviated to the fields it interpolates, in its order. */
  function DefaultHtml(name: string, eventTitle: string, displayDate: string, location: string,
                       organizerName: string, clientUrl: Option<string>): string
  {
    HtmlHead + ("Dear " + name + ",") + HtmlEvent + eventTitle + HtmlDate + displayDate + HtmlLocation + location
    + HtmlOrganizer + organizerName + HtmlVerify + Or(clientUrl, DefaultClientUrl) + HtmlTail
  }

  /** A truthy custom body is filled in; otherwise the default body is used. */
  function GenerateEmailTemplate(name: string, eventTitle: string, organizerName: string,
                                 displayDate: string, location: string,
                                 custom: Option<CustomTemplate>, clientUrl: Option<string>): (html: string)
  {
    if custom.Some? && Truthy(custom.value.body) then
      FillPlaceholders(custom.value.body.value, name, eventTitle, organizerName, displayDate, location)
    else DefaultHtml(name, eventTitle, displayDate, location, organizerName, clientUrl)
  }

  predicate NoPlaceholder(s: string) {
    !Contains(s, "{name}") && !Contains(s, "{eventTitle}") && !Contains(s, "{organizerName}")
    && !Contains(s, "{eventDate}") && !Contains(s, "{location}")
  }

  /** A custom body without placeholders is sent exactly as written. */
  lemma PlainCustomBodyUnchanged(body: string, name: string, eventTitle: string, organizerName: string,
                                 displayDate: string, location: string, clientUrl: Option<string>)
    requires body != "" && NoPlaceholder(body)
    ensures GenerateEmailTemplate(name, eventTitle, organizerName, displayDate, location,
                                  Some(CustomTemplate(None, Some(body))), clientUrl) == body
  {
    ReplaceAllAbsent(body, "{name}", name);
    ReplaceAllAbsent(body, "{eventTitle}", eventTitle);
    ReplaceAllAbsent(body, "{organizerName}", organizerName);
    ReplaceAllAbsent(body, "{eventDate}", displayDate);
    ReplaceAllAbsent(body, "{location}", location);
  }

  /** A text without `{` contains no placeholder. */
  lemma NoBraceNoPattern(s: string, pat: string)
    requires pat != "" && pat[0] == '{' && '{' !in s
    ensures !Contains(s, pat)
  {
  }

  /**
   * The substitutions run in order over the text the previous ones produced:
   * a name that itself reads `{eventTitle}` ends up as the event title.
   */
  lemma SubstitutionsApplyInOrder(eventTitle: string, organizerName: string, displayDate: string, location: string)
    requires '{' !in eventTitle
    ensures FillPlaceholders("{name}", "{eventTitle}", eventTitle, organizerName, displayDate, location)
            == eventTitle
  {
    var nm: string := "{name}";
    var et: string := "{eventTitle}";
    assert nm + [] == nm && et + [] == et && eventTitle + [] == eventTitle;
    ReplaceAllLeading(nm, [], et);
    assert ReplaceAll([], nm, et) == [];
    ReplaceAllLeading(et, [], eventTitle);
    assert ReplaceAll([], et, eventTitle) == [];
    NoBraceNoPattern(eventTitle, "{organizerName}");
    NoBraceNoPattern(eventTitle, "{eventDate}");
    NoBraceNoPattern(eventTitle, "{location}");
    ReplaceAllAbsent(eventTitle, "{organizerName}", organizerName);
    ReplaceAllAbsent(eventTitle, "{eventDate}", displayDate);
    ReplaceAllAbsent(eventTitle, "{location}", location);
  }

  /** Without a truthy custom body the default body is used, and it greets the participant by name. */
  lemma DefaultBodyGreets(name: string, eventTitle: string, organizerName: string, displayDate: string,
                          location: string, custom: Option<CustomTemplate>, clientUrl: Option<string>)
    requires !(custom.Some? && Truthy(custom.value.body))
    ensures var html := GenerateEmailTemplate(name, eventTitle, organizerName, displayDate, location, custom, clientUrl);
            html == DefaultHtml(name, eventTitle, displayDate, location, organizerName, clientUrl)
            && Contains(html, "Dear " + name + ",")
  {
    var html := DefaultHtml(name, eventTitle, displayDate, location, organizerName, clientUrl);
    var greeting := "Dear " + name + ",";
    assert html[|HtmlHead|..|HtmlHead| + |greeting|] == greeting;
    assert OccursAt(html, greeting, |HtmlHead|);
  }

  // ------------------------------------------------------------- service

  class EmailServiceState {
    const transporter: Transport
    /** `EMAIL_USER` and `CLIENT_URL` from the environment. */
    const emailUser: Option<string>
    const clientUrl: Option<string>

    constructor(transporter: Transport, emailUser: Option<string>, clientUrl: Option<string>)
      ensures this.transporter == transporter && this.emailUser == emailUser && this.clientUrl == clientUrl
    {
      this.transporter := transporter;
      this.emailUser := emailUser;
      this.clientUrl := clientUrl;
    }

    /** The mail a certificate is sent in. */
    function CertificateMail(participant: Contact, certificatePath: string, eventData: MailEvent,
                             custom: Option<CustomTemplate>): (m: Mail)
      ensures m.to == participant.email
      ensures m.fromName == SenderName && m.fromAddress == Or(emailUser, DefaultSender)
      ensures m.subject == Subject(custom, eventData.title)
      ensures m.attachments == [Attachment(AttachmentFileName(participant.name), certificatePath, AttachmentCid)]
      ensures custom.Some? && Truthy(custom.value.body) ==>
                m.html == FillPlaceholders(custom.value.body.value, participant.name, eventData.title,
                                           eventData.organizerName, eventData.displayDate, eventData.location)
      ensures !(custom.Some? && Truthy(custom.value.body)) ==>
                m.html == DefaultHtml(participant.name, eventData.title, eventData.displayDate, eventData.location,
                                      eventData.organizerName, clientUrl)
    {
      Mail(SenderName, Or(emailUser, DefaultSender), participant.email, Subject(custom, eventData.title),
           GenerateEmailTemplate(participant.name, eventData.title, eventData.organizerName,
                                 eventData.displayDate, eventData.location, custom, clientUrl),
           [Attachment(AttachmentFileName(participant.name), certificatePath, AttachmentCid)])
    }

    /** The result a send reports when the transport's log held `sent` mails before it. */
    function SendOutcome(participant: Contact, sent: nat): (r: EmailResult)
      ensures r.participant == participant
      ensures r.success <==> participant.email !in transporter.refuses
      ensures r.success ==> r.messageId == Some(sent) && r.error.None?
      ensures !r.success ==> r.messageId.None? && r.error == Some(transporter.failure)
    {
      if participant.email in transporter.refuses then EmailResult(false, None, Some(transporter.failure), participant)
      else EmailResult(true, Some(sent), None, participant)
    }

    /** Hands one certificate mail to the transport; a refusal is caught into the result. */
    method SendCertificateEmail(participant: Contact, certificatePath: string, eventData: MailEvent,
                                custom: Option<CustomTemplate>) returns (r: EmailResult)
      modifies transporter
      ensures transporter.attempts == old(transporter.attempts) + [CertificateMail(participant, certificatePath, eventData, custom)]
      ensures r == SendOutcome(participant, |old(transporter.attempts)|)
    {
      var sent := transporter.SendMail(CertificateMail(participant, certificatePath, eventData, custom));
      match sent
      case Ok(id) => r := EmailResult(true, Some(id), None, participant);
      case Err(msg) => r := EmailResult(false, None, Some(msg), participant);
    }

    /** Whether participant i has a successful certificate at the same index. */
    static predicate HasCertificate(certificates: seq<CertificateSlot>, i: nat) {
      i < |certificates| && certificates[i].success
    }

    /** How many of the first k participants have a successful certificate at their own index. */
    static function CountEligible(certificates: seq<CertificateSlot>, k: nat): (n: nat)
      ensures n <= k
    {
      if k == 0 then 0 else CountEligible(certificates, k - 1) + (if HasCertificate(certificates, k - 1) then 1 else 0)
    }

    /** The mails the bulk send hands over for the first k participants, in order. */
    function BulkMails(ps: seq<Contact>, certificates: seq<CertificateSlot>, eventData: MailEvent,
                       custom: Option<CustomTemplate>, k: nat): (ms: seq<Mail>)
      requires k <= |ps|
      ensures |ms| == CountEligible(certificates, k)
    {
      if k == 0 then []
      else BulkMails(ps, certificates, eventData, custom, k - 1)
           + (if HasCertificate(certificates, k - 1)
              then [CertificateMail(ps[k - 1], certificates[k - 1].filePath, eventData, custom)] else [])
    }

    /** The result for participant i, given the log length `base` before the bulk send. */
    function BulkResultAt(ps: seq<Contact>, certificates: seq<CertificateSlot>, eventData: MailEvent,
                          custom: Option<CustomTemplate>, base: nat, i: nat): EmailResult
      requires i < |ps|
    {
      if HasCertificate(certificates, i)
      then SendOutcome(ps[i], base + |BulkMails(ps, certificates, eventData, custom, i)|)
      else EmailResult(false, None, Some(GenerationFailed), ps[i])
    }

    function BulkResults(ps: seq<Contact>, certificates: seq<CertificateSlot>, eventData: MailEvent,
                         custom: Option<CustomTemplate>, base: nat, k: nat): (rs: seq<EmailResult>)
      requires k <= |ps|
      ensures |rs| == k
    {
      if k == 0 then []
      else BulkResults(ps, certificates, eventData, custom, base, k - 1)
           + [BulkResultAt(ps, certificates, eventData, custom, base, k - 1)]
    }

    /**
     * Result i is participant i's: `Certificate generation failed` when its
     * certificate is missing or unsuccessful, and otherwise the outcome of its
     * own mail.
     */
    lemma {:induction false} BulkResultsAligned(ps: seq<Contact>, certificates: seq<CertificateSlot>,
                                                eventData: MailEvent, custom: Option<CustomTemplate>,
                                                base: nat, k: nat, i: nat)
      requires i < k <= |ps|
      ensures var r := BulkResults(ps, certificates, eventData, custom, base, k)[i];
              && r == BulkResultAt(ps, certificates, eventData, custom, base, i)
              && r.participant == ps[i]
              && (!HasCertificate(certificates, i) ==> r.error == Some(GenerationFailed) && !r.success)
              && (HasCertificate(certificates, i) ==> (r.success <==> ps[i].email !in transporter.refuses))
      decreases k
    {
      if i < k - 1 {
        BulkResultsAligned(ps, certificates, eventData, custom, base, k - 1, i);
      }
    }

    /**
     * Only participants with a successful certificate at their own index get a
     * mail: every mail is the certificate mail of one of them, and each of them
     * gets its own mail, right after the mails of the eligible participants
     * before it.
     */
    lemma BulkMailsOnlyEligible(ps: seq<Contact>, certificates: seq<CertificateSlot>,
                                eventData: MailEvent, custom: Option<CustomTemplate>, k: nat)
      requires k <= |ps|
      ensures forall j :: 0 <= j < |BulkMails(ps, certificates, eventData, custom, k)| ==>
                MailOfSome(ps, certificates, eventData, custom, BulkMails(ps, certificates, eventData, custom, k)[j], k)
      ensures forall i :: 0 <= i < k && HasCertificate(certificates, i) ==>
                var ms := BulkMails(ps, certificates, eventData, custom, k);
                CountEligible(certificates, i) < |ms| && MailOf(ps, certificates, eventData, custom, ms[CountEligible(certificates, i)], i)
    {
      BulkMailsFromEligible(ps, certificates, eventData, custom, k);
      BulkMailsReachEligible(ps, certificates, eventData, custom, k);
    }

    /** m is the certificate mail of participant i, who has a successful certificate. */
    predicate MailOf(ps: seq<Contact>, certificates: seq<CertificateSlot>, eventData: MailEvent,
                     custom: Option<CustomTemplate>, m: Mail, i: nat)
      requires i < |ps|
    {
      HasCertificate(certificates, i) && m == CertificateMail(ps[i], certificates[i].filePath, eventData, custom)
    }

    /** m is the certificate mail of one of the first k participants. */
    predicate MailOfSome(ps: seq<Contact>, certificates: seq<CertificateSlot>, eventData: MailEvent,
                         custom: Option<CustomTemplate>, m: Mail, k: nat)
      requires k <= |ps|
    {
      exists i :: 0 <= i < k && MailOf(ps, certificates, eventData, custom, m, i)
    }

    lemma {:induction false} BulkMailsFromEligible(ps: seq<Contact>, certificates: seq<CertificateSlot>,
                                                   eventData: MailEvent, custom: Option<CustomTemplate>, k: nat)
      requires k <= |ps|
      ensures forall j :: 0 <= j < |BulkMails(ps, certificates, eventData, custom, k)| ==>
                MailOfSome(ps, certificates, eventData, custom, BulkMails(ps, certificates, eventData, custom, k)[j], k)
    {
      if k > 0 {
        BulkMailsFromEligible(ps, certificates, eventData, custom, k - 1);
        var init := BulkMails(ps, certificates, eventData, custom, k - 1);
        var ms := BulkMails(ps, certificates, eventData, custom, k);
        forall j | 0 <= j < |ms|
          ensures MailOfSome(ps, certificates, eventData, custom, ms[j], k)
        {
          if j < |init| {
            assert MailOfSome(ps, certificates, eventData, custom, init[j], k - 1);
            var i :| 0 <= i < k - 1 && MailOf(ps, certificates, eventData, custom, init[j], i);
            assert ms[j] == init[j];
            assert MailOf(ps, certificates, eventData, custom, ms[j], i);
          } else {
            assert MailOf(ps, certificates, eventData, custom, ms[j], k - 1);
          }
        }
      } else {
        assert BulkMails(ps, certificates, eventData, custom, k) == [];
      }
    }

    lemma {:induction false} BulkMailsReachEligible(ps: seq<Contact>, certificates: seq<CertificateSlot>,
                                                    eventData: MailEvent, custom: Option<CustomTemplate>, k: nat)
      requires k <= |ps|
      ensures forall i :: 0 <= i < k && HasCertificate(certificates, i) ==>
                var ms := BulkMails(ps, certificates, eventData, custom, k);
                CountEligible(certificates, i) < |ms| && MailOf(ps, certificates, eventData, custom, ms[CountEligible(certificates, i)], i)
    {
      if k > 0 {
        BulkMailsReachEligible(ps, certificates, eventData, custom, k - 1);
        var init := BulkMails(ps, certificates, eventData, custom, k - 1);
        var ms := BulkMails(ps, certificates, eventData, custom, k);
        forall i | 0 <= i < k && HasCertificate(certificates, i)
          ensures CountEligible(certificates, i) < |ms| && MailOf(ps, certificates, eventData, custom, ms[CountEligible(certificates, i)], i)
        {
          if i < k - 1 {
            assert ms[CountEligible(certificates, i)] == init[CountEligible(certificates, i)];
          }
        }
      }
    }

    /**
     * When every slot holds a certificate, participant i is mailed slot i's
     * file, whichever participant that file was made for; participants beyond
     * the slots get no mail.
     */
    lemma {:induction false} BulkMailsByPosition(ps: seq<Contact>, certificates: seq<CertificateSlot>,
                                                 eventData: MailEvent, custom: Option<CustomTemplate>, k: nat)
      requires k <= |ps|
      requires forall i :: 0 <= i < |certificates| ==> certificates[i].success
      ensures var ms := BulkMails(ps, certificates, eventData, custom, k);
              && |ms| == (if k <= |certificates| then k else |certificates|)
              && forall i :: 0 <= i < |ms| ==>
                   ms[i].to == ps[i].email
                   && ms[i].attachments == [Attachment(AttachmentFileName(ps[i].name), certificates[i].filePath, AttachmentCid)]
    {
      if k > 0 {
        BulkMailsByPosition(ps, certificates, eventData, custom, k - 1);
        var init := BulkMails(ps, certificates, eventData, custom, k - 1);
        var ms := BulkMails(ps, certificates, eventData, custom, k);
        if k - 1 < |certificates| {
          var last := CertificateMail(ps[k - 1], certificates[k - 1].filePath, eventData, custom);
          assert ms == init + [last];
          forall i | 0 <= i < |ms|
            ensures ms[i].to == ps[i].email
            ensures ms[i].attachments == [Attachment(AttachmentFileName(ps[i].name), certificates[i].filePath, AttachmentCid)]
          {
            if i < |init| {
              assert ms[i] == init[i];
            } else {
              assert i == k - 1 && ms[i] == last;
              assert last.to == ps[k - 1].email;
              assert last.attachments
                  == [Attachment(AttachmentFileName(ps[k - 1].name), certificates[k - 1].filePath, AttachmentCid)];
            }
          }
        } else {
          assert ms == init + [];
        }
      }
    }

    /** One batch: participants lo .. hi-1 in order, continuing the results and the log so far. */
    method SendBatch(participants: seq<Contact>, certificates: seq<CertificateSlot>,
                     eventData: MailEvent, custom: Option<CustomTemplate>,
                     lo: nat, hi: nat, ghost log: seq<Mail>, soFar: seq<EmailResult>)
      returns (results: seq<EmailResult>)
      requires lo <= hi <= |participants|
      requires soFar == BulkResults(participants, certificates, eventData, custom, |log|, lo)
      requires transporter.attempts == log + BulkMails(participants, certificates, eventData, custom, lo)
      modifies transporter
      ensures results == BulkResults(participants, certificates, eventData, custom, |log|, hi)
      ensures transporter.attempts == log + BulkMails(participants, certificates, eventData, custom, hi)
    {
      results := soFar;
      var j := lo;
      while j < hi
        invariant lo <= j <= hi
        invariant results == BulkResults(participants, certificates, eventData, custom, |log|, j)
        invariant transporter.attempts == log + BulkMails(participants, certificates, eventData, custom, j)
      {
        var r: EmailResult;
        ghost var before := BulkMails(participants, certificates, eventData, custom, j);
        if HasCertificate(certificates, j) {
          r := SendCertificateEmail(participants[j], certificates[j].filePath, eventData, custom);
          ConcatAssoc(log, before, [CertificateMail(participants[j], certificates[j].filePath, eventData, custom)]);
        } else {
          r := EmailResult(false, None, Some(GenerationFailed), participants[j]);
          assert before + [] == before;
        }
        results := results + [r];
        j := j + 1;
      }
    }

    /**
     * Batches of ten, one after the other; the certificate for the participant
     * at position i is `certificates[i]`, and a pause separates two batches.
     */
    method SendBulkCertificates(participants: seq<Contact>, certificates: seq<CertificateSlot>,
                                eventData: MailEvent, custom: Option<CustomTemplate>)
      returns (results: seq<EmailResult>, trace: seq<Activity>)
      modifies transporter
      ensures results == BulkResults(participants, certificates, eventData, custom,
                                     |old(transporter.attempts)|, |participants|)
      ensures transporter.attempts == old(transporter.attempts)
                                      + BulkMails(participants, certificates, eventData, custom, |participants|)
      ensures trace == Schedule(|participants|, BatchSize, BatchPause)
    {
      var n := |participants|;
      ghost var log := transporter.attempts;
      results := [];
      trace := [];
      var i := 0;
      while i < n
        invariant results == BulkResults(participants, certificates, eventData, custom, |log|, Min(i, n))
        invariant transporter.attempts == log + BulkMails(participants, certificates, eventData, custom, Min(i, n))
        invariant trace + ScheduleFrom(i, n, BatchSize, BatchPause) == Schedule(n, BatchSize, BatchPause)
        decreases n - i
      {
        var hi := Min(i + BatchSize, n);
        results := SendBatch(participants, certificates, eventData, custom, i, hi, log, results);
        ScheduleAdvance(trace, i, n, BatchSize, BatchPause);
        trace := trace + Batch(i, n, BatchSize, BatchPause);
        i := i + BatchSize;
      }
      ScheduleDone(trace, i, n, BatchSize, BatchPause);
    }

    /** `sendTestEmail`: a fixed mail to one address; `timeText` is the locale rendering of the current time. */
    method SendTestEmail(email: string, timeText: string) returns (r: Result<nat, string>)
      modifies transporter
      ensures transporter.attempts == old(transporter.attempts) + [TestMail(email, timeText)]
      ensures r.Ok? <==> email !in transporter.refuses
      ensures r.Ok? ==> r.value == |old(transporter.attempts)|
      ensures r.Err? ==> r.error == transporter.failure
    {
      r := transporter.SendMail(TestMail(email, timeText));
    }

    /** The test body up to the rendered time. */
    static const TestBodyIntro: string :=
      "<h2>Email Service Test</h2><p>If you receive this email, the EventEye email service is working correctly!</p><p>Time: "

    function TestMail(email: string, timeText: string): (m: Mail)
      ensures m.to == email && m.subject == TestSubject && m.attachments == []
      ensures m.fromName == TestSenderName && m.fromAddress == Or(emailUser, DefaultSender)
    {
      Mail(TestSenderName, Or(emailUser, DefaultSender), email, TestSubject,
           TestBodyIntro + timeText + "</p>", [])
    }
  }
}
