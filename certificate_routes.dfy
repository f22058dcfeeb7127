/**
 * The certificate routes stripped of HTTP and persistence: generating the
 * certificates of an event, sending them, verifying one and downloading one.
 * Generation and sending are loops that update the roster (first participant
 * with a matching email) and the certificate records.
 */
module CertificateRoutes {
  import opened Wrappers
  import opened Text
  import opened Store
  import EM = EventModel
  import CM = CertificateModel
  import Gen = CertificateGenerator
  import ES = EmailService

  const NotAuthorizedToGenerate: string := "Not authorized to generate certificates for this event"
  const NoParticipants: string := "No participants found for this event"
  const NotAuthorizedToSend: string := "Not authorized to send certificates for this event"
  const NoCertificates: string := "No certificates found. Please generate certificates first."
  const NotFoundOrInvalid: string := "Certificate not found or invalid"
  const CertificateNotFound: string := "Certificate not found"
  const FileNotFound: string := "Certificate file not found"

  // ------------------------------------------------------- roster updates

  /** `participants.findIndex(p => p.email === email)`. */
  function FirstWithEmail(ps: seq<EM.Participant>, email: string): (r: Option<nat>)
    ensures r.Some? ==> r.value < |ps| && ps[r.value].email == email
    ensures r.Some? ==> forall j :: 0 <= j < r.value ==> ps[j].email != email
    ensures r.None? ==> forall j :: 0 <= j < |ps| ==> ps[j].email != email
  {
    FirstIndex(ps, (p: EM.Participant) => p.email == email)
  }

  /** A status update addressed to a roster email, setting the certificate id too when it carries one. */
  datatype Mark = Mark(email: string, status: EM.ParticipantStatus, certificateId: Option<string>)

  function Marked(p: EM.Participant, m: Mark): (q: EM.Participant)
    ensures q.name == p.name && q.email == p.email && q.phone == p.phone
    ensures q.registrationDate == p.registrationDate && q.qrCode == p.qrCode
    ensures q.certificateStatus == m.status && q.certificateId == m.certificateId.GetOr(p.certificateId)
  {
    p.(certificateStatus := m.status, certificateId := m.certificateId.GetOr(p.certificateId))
  }

  /** One update: only the first participant with the mark's email takes it. */
  function MarkFirst(ps: seq<EM.Participant>, m: Mark): (r: seq<EM.Participant>)
    ensures |r| == |ps|
    ensures forall j :: 0 <= j < |ps| ==> r[j].email == ps[j].email
    ensures FirstWithEmail(ps, m.email).None? ==> r == ps
    ensures FirstWithEmail(ps, m.email).Some? ==>
      var i := FirstWithEmail(ps, m.email).value;
      r[i] == Marked(ps[i], m) && forall j :: 0 <= j < |ps| && j != i ==> r[j] == ps[j]
  {
    match FirstWithEmail(ps, m.email)
    case Some(i) => ps[i := Marked(ps[i], m)]
    case None => ps
  }

  /** The updates applied one after the other, in order. */
  function ApplyMarks(ps: seq<EM.Participant>, ms: seq<Mark>): (r: seq<EM.Participant>)
    ensures |r| == |ps|
    ensures forall j :: 0 <= j < |ps| ==> r[j].email == ps[j].email
    decreases |ms|
  {
    if ms == [] then ps else MarkFirst(ApplyMarks(ps, ms[..|ms| - 1]), ms[|ms| - 1])
  }

  /** The updates addressed to p's email, applied to p alone. */
  function OwnMarks(p: EM.Participant, ms: seq<Mark>): (q: EM.Participant)
    ensures q.email == p.email
    decreases |ms|
  {
    if ms == [] then p
    else
      var q := OwnMarks(p, ms[..|ms| - 1]);
      if ms[|ms| - 1].email == p.email then Marked(q, ms[|ms| - 1]) else q
  }

  predicate UniqueEmails(ps: seq<EM.Participant>) {
    forall i, j :: 0 <= i < j < |ps| ==> ps[i].email != ps[j].email
  }

  lemma ApplyMarksSnoc(ps: seq<EM.Participant>, ms: seq<Mark>, m: Mark)
    ensures ApplyMarks(ps, ms + [m]) == MarkFirst(ApplyMarks(ps, ms), m)
  {
    assert (ms + [m])[..|ms|] == ms;
  }

  lemma OwnMarksSnoc(p: EM.Participant, ms: seq<Mark>, m: Mark)
    ensures OwnMarks(p, ms + [m]) == if m.email == p.email then Marked(OwnMarks(p, ms), m) else OwnMarks(p, ms)
  {
    assert (ms + [m])[..|ms|] == ms;
  }

  /**
   * With distinct roster emails, every participant receives exactly the
   * updates addressed to its email, in order, and nothing else.
   */
  lemma {:induction false} ApplyMarksUnique(ps: seq<EM.Participant>, ms: seq<Mark>, j: nat)
    requires UniqueEmails(ps) && j < |ps|
    ensures ApplyMarks(ps, ms)[j] == OwnMarks(ps[j], ms)
    decreases |ms|
  {
    if ms != [] {
      var init := ms[..|ms| - 1];
      var m := ms[|ms| - 1];
      var a := ApplyMarks(ps, init);
      ApplyMarksUnique(ps, init, j);
      match FirstWithEmail(a, m.email)
      case None =>
      case Some(i) =>
        assert a[i].email == ps[i].email && a[j].email == ps[j].email;
    }
  }

  /** A participant addressed by exactly one update ends up with that update. */
  lemma {:induction false} OwnMarksSingle(p: EM.Participant, ms: seq<Mark>, k: nat)
    requires k < |ms| && ms[k].email == p.email
    requires forall i :: 0 <= i < |ms| && i != k ==> ms[i].email != p.email
    ensures OwnMarks(p, ms) == Marked(p, ms[k])
    decreases |ms|
  {
    var init := ms[..|ms| - 1];
    if k < |ms| - 1 {
      OwnMarksSingle(p, init, k);
    } else {
      OwnMarksNone(p, init);
    }
  }

  /** A participant addressed by no update is left as it was. */
  lemma {:induction false} OwnMarksNone(p: EM.Participant, ms: seq<Mark>)
    requires forall i :: 0 <= i < |ms| ==> ms[i].email != p.email
    ensures OwnMarks(p, ms) == p
    decreases |ms|
  {
    if ms != [] {
      OwnMarksNone(p, ms[..|ms| - 1]);
    }
  }

  // ------------------------------------------------------------ generation

  /** The request fields the generation handler reads; `now` is the save time. */
  datatype GenerateRequest = GenerateRequest(
    eventId: string, userId: string, userName: string, template: Option<string>, now: int)

  datatype GenerateSummary = GenerateSummary(
    totalParticipants: nat, certificatesGenerated: nat, failed: nat, certificates: seq<CM.Certificate>)

  /** `template || event.certificateTemplate?.layout || 'classic'`. */
  function LayoutChoice(template: Option<string>, eventLayout: Option<string>): (l: string)
    ensures Truthy(template) ==> l == template.value
    ensures !Truthy(template) && Truthy(eventLayout) ==> l == eventLayout.value
    ensures !Truthy(template) && !Truthy(eventLayout) ==> l == "classic"
  {
    Or(template, Or(eventLayout, "classic"))
  }

  /** The event data handed to the builder: the organizer's name is the caller's. */
  function GeneratorInput(e: EM.Event, req: GenerateRequest): Gen.GeneratorEvent {
    Gen.GeneratorEvent(e.title, e.eventDate, req.userName, e.location,
      Some(LayoutChoice(req.template, Some(EM.LayoutName(e.certificateTemplate.layout)))))
  }

  /** The builder paints with the request's template when there is one, else with the event's layout. */
  lemma EffectiveLayout(e: EM.Event, req: GenerateRequest)
    ensures Truthy(req.template) ==> Gen.LayoutOf(GeneratorInput(e, req)) == req.template.value
    ensures !Truthy(req.template) ==> Gen.LayoutOf(GeneratorInput(e, req)) == EM.LayoutName(e.certificateTemplate.layout)
  {
    assert EM.LayoutName(e.certificateTemplate.layout) != "";
  }

  /** A result the handler stores: `result.success`, with the certificate the builder returned. */
  predicate Saves(r: Gen.GenerationResult) {
    r.success && r.certificate.Some?
  }

  /** The certificate record stored for a successful result. */
  function RecordFor(e: EM.Event, req: GenerateRequest, r: Gen.GenerationResult): (c: CM.Certificate)
    requires Saves(r)
    ensures c.certificateId == r.certificate.value.certificateId && c.event == req.eventId
    ensures c.participant == CM.ParticipantSnapshot(r.participant.name, r.participant.email, r.participant.phone)
    ensures c.certificateData.certificateNumber == c.certificateId
    ensures c.verificationUrl == c.qrCode.data == r.certificate.value.qrCodeData
    ensures c.status == CM.Generated && c.deliveryAttempts == 0 && c.lastDeliveryAttempt == None
    ensures c.metadata.generatedBy == req.userId && c.metadata.templateUsed == Or(req.template, "classic")
  {
    var g := r.certificate.value;
    CM.NewCertificate(g.certificateId, req.eventId,
      CM.ParticipantSnapshot(r.participant.name, r.participant.email, r.participant.phone),
      CM.CertificateData(r.participant.name, e.title, e.eventDate, req.userName, e.location, g.certificateId),
      g.qrCodeData, g.filePath, g.qrCodeData, req.userId, Some(Or(req.template, "classic")), req.now)
  }

  /** The records saved for the first k results, in order. */
  function SavedRecords(e: EM.Event, req: GenerateRequest, rs: seq<Gen.GenerationResult>, k: nat): (cs: seq<CM.Certificate>)
    requires k <= |rs|
    ensures |cs| <= k
  {
    if k == 0 then []
    else SavedRecords(e, req, rs, k - 1) + (if Saves(rs[k - 1]) then [RecordFor(e, req, rs[k - 1])] else [])
  }

  function GeneratedMark(r: Gen.GenerationResult): Mark
    requires Saves(r)
  {
    Mark(r.participant.email, EM.Generated, Some(r.certificate.value.certificateId))
  }

  /** The roster updates for the first k results, in order. */
  function GeneratedMarks(rs: seq<Gen.GenerationResult>, k: nat): seq<Mark>
    requires k <= |rs|
  {
    if k == 0 then []
    else GeneratedMarks(rs, k - 1) + (if Saves(rs[k - 1]) then [GeneratedMark(rs[k - 1])] else [])
  }

  /** The environment supplies one draw per roster entry of the event. */
  predicate DrawsFit(es: seq<StoredEvent>, eventId: string, draws: seq<Gen.Draw>) {
    FindEvent(es, eventId).Some? ==> |draws| == |es[FindEvent(es, eventId).value].doc.participants|
  }

  /**
   * The generation handler: the guards, then the builder over the roster,
   * one stored record per success, and the roster updated to `generated`.
   */
  function Generation(es: seq<StoredEvent>, cs: seq<CM.Certificate>, req: GenerateRequest,
                      draws: seq<Gen.Draw>, clientUrl: Option<string>): (o: Outcome<GenerateSummary>)
    requires DrawsFit(es, req.eventId, draws)
    ensures o.response.Err? ==> o.events == es && o.certificates == cs
    ensures OwnedEvent(es, req.eventId, req.userId, NotAuthorizedToGenerate).Err? ==>
      o.response == Err(OwnedEvent(es, req.eventId, req.userId, NotAuthorizedToGenerate).error)
    ensures OwnedEvent(es, req.eventId, req.userId, NotAuthorizedToGenerate).Ok? ==>
      var e := es[FindEvent(es, req.eventId).value].doc;
      (o.response.Err? <==> |e.participants| == 0)
      && (o.response.Err? ==> o.response.error == Rejection(400, NoParticipants))
    ensures |o.events| == |es|
    ensures forall k :: 0 <= k < |es| && es[k].id != req.eventId ==> o.events[k] == es[k]
  {
    match OwnedEvent(es, req.eventId, req.userId, NotAuthorizedToGenerate)
    case Err(rej) => Outcome(Err(rej), es, cs)
    case Ok(i) =>
      var e := es[i].doc;
      if |e.participants| == 0 then Outcome(Err(Rejection(400, NoParticipants)), es, cs)
      else
        var rs := Gen.GenerateAll(e.participants, GeneratorInput(e, req), draws, clientUrl);
        var saved := SavedRecords(e, req, rs, |rs|);
        var ps := ApplyMarks(e.participants, GeneratedMarks(rs, |rs|));
        Outcome(Ok(GenerateSummary(|ps|, |saved|, Gen.CountFailed(rs), saved)),
                es[i := es[i].(doc := e.(participants := ps))], cs + saved)
  }

  /** The handler's loop over the builder's results: store and mark each success in turn. */
  method StoreResults(db: Database, e: EM.Event, req: GenerateRequest, results: seq<Gen.GenerationResult>)
    returns (ps: seq<EM.Participant>, saved: seq<CM.Certificate>)
    modifies db
    ensures saved == SavedRecords(e, req, results, |results|)
    ensures ps == ApplyMarks(e.participants, GeneratedMarks(results, |results|))
    ensures db.certificates == old(db.certificates) + saved
    ensures db.events == old(db.events)
  {
    ps := e.participants;
    saved := [];
    ghost var before := db.certificates;
    for k := 0 to |results|
      invariant saved == SavedRecords(e, req, results, k)
      invariant ps == ApplyMarks(e.participants, GeneratedMarks(results, k))
      invariant db.certificates == before + saved
      invariant db.events == old(db.events)
    {
      var res := results[k];
      ghost var marks := GeneratedMarks(results, k);
      if res.success && res.certificate.Some? {
        var cert := RecordFor(e, req, res);
        ConcatAssoc(before, saved, [cert]);
        db.certificates := db.certificates + [cert];
        saved := saved + [cert];
        ApplyMarksSnoc(e.participants, marks, GeneratedMark(res));
        ps := MarkFirst(ps, GeneratedMark(res));
      } else {
        assert marks + [] == marks;
        assert saved + [] == saved;
      }
    }
  }

  /** `POST /generate/:eventId`: the guards, the builder, then the records and the roster saved. */
  method GenerateCertificates(db: Database, req: GenerateRequest, draws: seq<Gen.Draw>, clientUrl: Option<string>)
    returns (r: Result<GenerateSummary, Rejection>)
    requires DrawsFit(db.events, req.eventId, draws)
    modifies db
    ensures Outcome(r, db.events, db.certificates)
            == Generation(old(db.events), old(db.certificates), req, draws, clientUrl)
  {
    var owned := OwnedEvent(db.events, req.eventId, req.userId, NotAuthorizedToGenerate);
    if owned.Err? {
      return Err(owned.error);
    }
    var i := owned.value;
    var e := db.events[i].doc;
    if |e.participants| == 0 {
      return Err(Rejection(400, NoParticipants));
    }
    var results := Gen.GenerateBulkCertificates(e.participants, GeneratorInput(e, req), draws, clientUrl);
    var ps, saved := StoreResults(db, e, req, results);
    db.events := db.events[i := db.events[i].(doc := e.(participants := ps))];
    r := Ok(GenerateSummary(|ps|, |saved|, Gen.CountFailed(results), saved));
  }

  // ---------------------------------------------------- generation facts

  lemma {:induction false} CountFailedSnoc(a: seq<Gen.GenerationResult>, x: Gen.GenerationResult)
    ensures Gen.CountFailed(a + [x]) == Gen.CountFailed(a) + (if x.success then 0 else 1)
  {
    if a == [] {
      assert [x][1..] == [];
    } else {
      assert (a + [x])[1..] == a[1..] + [x];
      CountFailedSnoc(a[1..], x);
    }
  }

  /** Every successful result carries a certificate, as the builder guarantees. */
  predicate Coherent(rs: seq<Gen.GenerationResult>) {
    forall i :: 0 <= i < |rs| ==> (rs[i].success ==> rs[i].certificate.Some?)
  }

  lemma {:induction false} SavedPlusFailed(e: EM.Event, req: GenerateRequest, rs: seq<Gen.GenerationResult>, k: nat)
    requires k <= |rs| && Coherent(rs)
    ensures |SavedRecords(e, req, rs, k)| + Gen.CountFailed(rs[..k]) == k
  {
    if k > 0 {
      SavedPlusFailed(e, req, rs, k - 1);
      assert rs[..k] == rs[..k - 1] + [rs[k - 1]];
      CountFailedSnoc(rs[..k - 1], rs[k - 1]);
    }
  }

  /** `certificatesGenerated + failed` is the roster size, and the summary lists every stored record. */
  lemma GenerationCounts(es: seq<StoredEvent>, cs: seq<CM.Certificate>, req: GenerateRequest,
                         draws: seq<Gen.Draw>, clientUrl: Option<string>)
    requires DrawsFit(es, req.eventId, draws)
    requires Generation(es, cs, req, draws, clientUrl).response.Ok?
    ensures var s := Generation(es, cs, req, draws, clientUrl).response.value;
            && s.certificatesGenerated + s.failed == s.totalParticipants
            && s.totalParticipants == |es[FindEvent(es, req.eventId).value].doc.participants|
            && |s.certificates| == s.certificatesGenerated
  {
    var e := es[FindEvent(es, req.eventId).value].doc;
    var rs := Gen.GenerateAll(e.participants, GeneratorInput(e, req), draws, clientUrl);
    assert Coherent(rs);
    SavedPlusFailed(e, req, rs, |rs|);
    assert rs[..|rs|] == rs;
  }

  lemma {:induction false} GeneratedOwn(p: EM.Participant, rs: seq<Gen.GenerationResult>, k: nat, j: nat)
    requires k <= |rs| && j < |rs| && rs[j].participant.email == p.email
    requires forall i :: 0 <= i < |rs| && i != j ==> rs[i].participant.email != p.email
    ensures OwnMarks(p, GeneratedMarks(rs, k))
            == if j < k && Saves(rs[j]) then Marked(p, GeneratedMark(rs[j])) else p
  {
    if k > 0 {
      GeneratedOwn(p, rs, k - 1, j);
      var init := GeneratedMarks(rs, k - 1);
      if Saves(rs[k - 1]) {
        OwnMarksSnoc(p, init, GeneratedMark(rs[k - 1]));
      } else {
        assert init + [] == init;
      }
    }
  }

  /**
   * With distinct roster emails and results aligned to the roster,
   * participant j is marked `generated` with the uuid of its own draw exactly
   * when its render succeeded, and is otherwise left as it was.
   */
  lemma RosterMarksGenerated(ps: seq<EM.Participant>, rs: seq<Gen.GenerationResult>, j: nat)
    requires UniqueEmails(ps) && |rs| == |ps| && j < |ps|
    requires forall x :: 0 <= x < |rs| ==> rs[x].participant == ps[x]
    ensures ApplyMarks(ps, GeneratedMarks(rs, |rs|))[j]
         == if Saves(rs[j]) then Marked(ps[j], GeneratedMark(rs[j])) else ps[j]
  {
    forall x | 0 <= x < |rs| && x != j
      ensures rs[x].participant.email != ps[j].email
    {
      if x < j {
        assert ps[x].email != ps[j].email;
      } else {
        assert ps[j].email != ps[x].email;
      }
    }
    ApplyMarksUnique(ps, GeneratedMarks(rs, |rs|), j);
    GeneratedOwn(ps[j], rs, |rs|, j);
  }

  lemma GenerationMarksRoster(es: seq<StoredEvent>, cs: seq<CM.Certificate>, req: GenerateRequest,
                              draws: seq<Gen.Draw>, clientUrl: Option<string>, j: nat)
    requires DrawsFit(es, req.eventId, draws)
    requires Generation(es, cs, req, draws, clientUrl).response.Ok?
    requires UniqueEmails(es[FindEvent(es, req.eventId).value].doc.participants)
    requires j < |es[FindEvent(es, req.eventId).value].doc.participants|
    ensures var i := FindEvent(es, req.eventId).value;
            var p := es[i].doc.participants[j];
            var q := Generation(es, cs, req, draws, clientUrl).events[i].doc.participants[j];
            q == if draws[j].renders then Marked(p, Mark(p.email, EM.Generated, Some(draws[j].uuid))) else p
  {
    var i := FindEvent(es, req.eventId).value;
    var e := es[i].doc;
    var ps := e.participants;
    var rs := Gen.GenerateAll(ps, GeneratorInput(e, req), draws, clientUrl);
    assert forall x :: 0 <= x < |rs| ==> rs[x].participant == ps[x];
    RosterMarksGenerated(ps, rs, j);
  }

  /**
   * A record stored for the roster ps: fresh, of the requested event, stored
   * under the uuid of a draw that rendered, with that uuid as its certificate
   * number while its verification URL embeds the draw's `CERT-` number.
   */
  predicate StoredFrom(c: CM.Certificate, req: GenerateRequest, ps: seq<EM.Participant>,
                      draws: seq<Gen.Draw>, clientUrl: Option<string>, k: nat)
    requires k <= |draws| && k <= |ps|
  {
    && c.event == req.eventId && c.status == CM.Generated && c.deliveryAttempts == 0
    && c.lastDeliveryAttempt == None && c.certificateData.certificateNumber == c.certificateId
    && exists j :: 0 <= j < k && draws[j].renders && c.certificateId == draws[j].uuid
         && c.participant.email == ps[j].email
         && c.verificationUrl == Gen.VerificationUrl(clientUrl, Gen.CertificateNumber(draws[j].timestamp, draws[j].random))
  }

  lemma StoredFromWider(c: CM.Certificate, req: GenerateRequest, ps: seq<EM.Participant>,
                        draws: seq<Gen.Draw>, clientUrl: Option<string>, k: nat)
    requires k < |draws| && k < |ps|
    requires StoredFrom(c, req, ps, draws, clientUrl, k)
    ensures StoredFrom(c, req, ps, draws, clientUrl, k + 1)
  {
    var j :| 0 <= j < k && draws[j].renders && c.certificateId == draws[j].uuid
             && c.participant.email == ps[j].email
             && c.verificationUrl == Gen.VerificationUrl(clientUrl, Gen.CertificateNumber(draws[j].timestamp, draws[j].random));
    assert 0 <= j < k + 1;
  }

  /** The record saved for the k-th result comes from the k-th participant's successful render. */
  lemma NewRecordShape(e: EM.Event, req: GenerateRequest, draws: seq<Gen.Draw>, clientUrl: Option<string>, k: nat)
    requires |draws| == |e.participants| && 0 < k <= |draws|
    requires Saves(Gen.GenerateAll(e.participants, GeneratorInput(e, req), draws, clientUrl)[k - 1])
    ensures StoredFrom(RecordFor(e, req, Gen.GenerateAll(e.participants, GeneratorInput(e, req), draws, clientUrl)[k - 1]),
                       req, e.participants, draws, clientUrl, k)
  {
    var r := Gen.GenerateAll(e.participants, GeneratorInput(e, req), draws, clientUrl)[k - 1];
    assert r == Gen.GenerateFor(e.participants[k - 1], GeneratorInput(e, req), draws[k - 1], clientUrl);
    var c := RecordFor(e, req, r);
    assert draws[k - 1].renders && c.certificateId == draws[k - 1].uuid;
  }

  lemma {:induction false} SavedRecordsShape(e: EM.Event, req: GenerateRequest, draws: seq<Gen.Draw>,
                                             clientUrl: Option<string>, k: nat)
    requires |draws| == |e.participants| && k <= |draws|
    ensures var rs := Gen.GenerateAll(e.participants, GeneratorInput(e, req), draws, clientUrl);
            forall c :: c in SavedRecords(e, req, rs, k) ==> StoredFrom(c, req, e.participants, draws, clientUrl, k)
  {
    var rs := Gen.GenerateAll(e.participants, GeneratorInput(e, req), draws, clientUrl);
    if k > 0 {
      SavedRecordsShape(e, req, draws, clientUrl, k - 1);
      forall c | c in SavedRecords(e, req, rs, k)
        ensures StoredFrom(c, req, e.participants, draws, clientUrl, k)
      {
        if c in SavedRecords(e, req, rs, k - 1) {
          StoredFromWider(c, req, e.participants, draws, clientUrl, k - 1);
        } else {
          assert c == RecordFor(e, req, rs[k - 1]);
          NewRecordShape(e, req, draws, clientUrl, k);
        }
      }
    }
  }

  /**
   * The existing records are kept, and every appended one is a fresh record
   * of the event for a participant whose render succeeded.
   */
  lemma GenerationRecords(es: seq<StoredEvent>, cs: seq<CM.Certificate>, req: GenerateRequest,
                          draws: seq<Gen.Draw>, clientUrl: Option<string>)
    requires DrawsFit(es, req.eventId, draws)
    requires Generation(es, cs, req, draws, clientUrl).response.Ok?
    ensures var o := Generation(es, cs, req, draws, clientUrl);
            var ps := es[FindEvent(es, req.eventId).value].doc.participants;
            && |cs| <= |o.certificates| && o.certificates[..|cs|] == cs
            && o.certificates[|cs|..] == o.response.value.certificates
            && forall c :: c in o.certificates[|cs|..] ==> StoredFrom(c, req, ps, draws, clientUrl, |ps|)
  {
    var e := es[FindEvent(es, req.eventId).value].doc;
    var rs := Gen.GenerateAll(e.participants, GeneratorInput(e, req), draws, clientUrl);
    var saved := SavedRecords(e, req, rs, |rs|);
    SavedRecordsShape(e, req, draws, clientUrl, |rs|);
    assert (cs + saved)[..|cs|] == cs;
    assert (cs + saved)[|cs|..] == saved;
  }

  // --------------------------------------------------------------- sending

  /** The request fields the send handler reads; `displayDate` is the locale rendering of the event date. */
  datatype SendRequest = SendRequest(
    eventId: string, userId: string, userName: string, custom: Option<ES.CustomTemplate>,
    deliveryMethod: Option<CM.DeliveryMethod>, displayDate: string, now: int)

  datatype SendSummary = SendSummary(totalCertificates: nat, sent: nat, failed: nat, results: seq<ES.EmailResult>)

  /** The roster as the email adapter sees it. */
  function Contacts(ps: seq<EM.Participant>): (cs: seq<ES.Contact>)
    ensures |cs| == |ps| && forall i :: 0 <= i < |ps| ==> cs[i] == ES.Contact(ps[i].name, ps[i].email)
  {
    seq(|ps|, i requires 0 <= i < |ps| => ES.Contact(ps[i].name, ps[i].email))
  }

  /** `certificates.map(cert => ({success: true, certificate: {filePath}}))`: every slot reads as a success. */
  function Slots(cs: seq<CM.Certificate>): (ss: seq<ES.CertificateSlot>)
    ensures |ss| == |cs| && forall i :: 0 <= i < |cs| ==> ss[i] == ES.CertificateSlot(true, cs[i].filePath)
  {
    seq(|cs|, i requires 0 <= i < |cs| => ES.CertificateSlot(true, cs[i].filePath))
  }

  function MailInput(e: EM.Event, req: SendRequest): ES.MailEvent {
    ES.MailEvent(e.title, req.userName, req.displayDate, e.location)
  }

  /** `certificates.find(cert => cert.participant.email === email)` over the event's records, as a store position. */
  function FirstCertificate(cs: seq<CM.Certificate>, eventId: string, email: string): (r: Option<nat>)
    ensures r.Some? ==> r.value < |cs| && cs[r.value].event == eventId && cs[r.value].participant.email == email
    ensures r.Some? ==> forall j :: 0 <= j < r.value ==> !(cs[j].event == eventId && cs[j].participant.email == email)
    ensures r.None? ==> forall j :: 0 <= j < |cs| ==> !(cs[j].event == eventId && cs[j].participant.email == email)
  {
    if cs == [] then None
    else if cs[0].event == eventId && cs[0].participant.email == email then Some(0)
    else match FirstCertificate(cs[1..], eventId, email)
      case Some(i) => Some(i + 1)
      case None => None
  }

  /** A record after one delivery attempt. */
  function Attempted(c: CM.Certificate, success: bool, channel: CM.DeliveryMethod, now: int): (d: CM.Certificate)
    ensures d.status == (if success then CM.Sent else CM.Failed)
    ensures d.deliveryAttempts == c.deliveryAttempts + 1
    ensures d.lastDeliveryAttempt == Some(now) && d.deliveryMethod == channel
    ensures d.certificateId == c.certificateId && d.event == c.event && d.participant == c.participant
    ensures d.certificateData == c.certificateData && d.filePath == c.filePath && d.verificationUrl == c.verificationUrl
  {
    c.(status := if success then CM.Sent else CM.Failed, deliveryAttempts := c.deliveryAttempts + 1,
       lastDeliveryAttempt := Some(now), deliveryMethod := channel)
  }

  /** One send result: only the event's first record with the result's email takes the attempt. */
  function RecordSend(cs: seq<CM.Certificate>, eventId: string, r: ES.EmailResult,
                      channel: CM.DeliveryMethod, now: int): (cs': seq<CM.Certificate>)
    ensures |cs'| == |cs|
    ensures FirstCertificate(cs, eventId, r.participant.email).None? ==> cs' == cs
    ensures FirstCertificate(cs, eventId, r.participant.email).Some? ==>
      var i := FirstCertificate(cs, eventId, r.participant.email).value;
      cs'[i] == Attempted(cs[i], r.success, channel, now) && forall j :: 0 <= j < |cs| && j != i ==> cs'[j] == cs[j]
  {
    match FirstCertificate(cs, eventId, r.participant.email)
    case Some(i) => cs[i := Attempted(cs[i], r.success, channel, now)]
    case None => cs
  }

  /** The first k send results recorded, in order. */
  function RecordSends(cs: seq<CM.Certificate>, eventId: string, rs: seq<ES.EmailResult>, k: nat,
                       channel: CM.DeliveryMethod, now: int): (cs': seq<CM.Certificate>)
    requires k <= |rs|
    ensures |cs'| == |cs|
  {
    if k == 0 then cs else RecordSend(RecordSends(cs, eventId, rs, k - 1, channel, now), eventId, rs[k - 1], channel, now)
  }

  function SendMark(r: ES.EmailResult): Mark {
    Mark(r.participant.email, if r.success then EM.Sent else EM.Failed, None)
  }

  /** The roster updates for the first k send results, in order. */
  function SendMarks(rs: seq<ES.EmailResult>, k: nat): (ms: seq<Mark>)
    requires k <= |rs|
    ensures |ms| == k && forall i :: 0 <= i < k ==> ms[i] == SendMark(rs[i])
  {
    if k == 0 then [] else SendMarks(rs, k - 1) + [SendMark(rs[k - 1])]
  }

  function CountSuccesses(rs: seq<ES.EmailResult>): (n: nat)
    ensures n <= |rs|
  {
    Count(rs, (r: ES.EmailResult) => r.success)
  }

  function CountFailures(rs: seq<ES.EmailResult>): (n: nat)
    ensures n <= |rs|
  {
    Count(rs, (r: ES.EmailResult) => !r.success)
  }

  lemma {:induction false} SuccessesPlusFailures(rs: seq<ES.EmailResult>)
    ensures CountSuccesses(rs) + CountFailures(rs) == |rs|
  {
    if rs != [] {
      SuccessesPlusFailures(rs[1..]);
    }
  }

  /**
   * The send handler: the guards, the email adapter over the roster with the
   * event's records aligned by position, then every result recorded on the
   * event's first matching record and on the first matching participant.
   */
  function Sending(es: seq<StoredEvent>, cs: seq<CM.Certificate>, req: SendRequest,
                   svc: ES.EmailServiceState, base: nat): (o: Outcome<SendSummary>)
    ensures o.response.Err? ==> o.events == es && o.certificates == cs
    ensures OwnedEvent(es, req.eventId, req.userId, NotAuthorizedToSend).Err? ==>
      o.response == Err(OwnedEvent(es, req.eventId, req.userId, NotAuthorizedToSend).error)
    ensures OwnedEvent(es, req.eventId, req.userId, NotAuthorizedToSend).Ok? ==>
      (o.response.Err? <==> |EventCertificates(cs, req.eventId)| == 0)
      && (o.response.Err? ==> o.response.error == Rejection(400, NoCertificates))
    ensures |o.events| == |es| && |o.certificates| == |cs|
    ensures forall k :: 0 <= k < |es| && es[k].id != req.eventId ==> o.events[k] == es[k]
  {
    match OwnedEvent(es, req.eventId, req.userId, NotAuthorizedToSend)
    case Err(rej) => Outcome(Err(rej), es, cs)
    case Ok(i) =>
      var e := es[i].doc;
      var mine := EventCertificates(cs, req.eventId);
      if |mine| == 0 then Outcome(Err(Rejection(400, NoCertificates)), es, cs)
      else
        var contacts := Contacts(e.participants);
        var rs := svc.BulkResults(contacts, Slots(mine), MailInput(e, req), req.custom, base, |contacts|);
        var channel := req.deliveryMethod.GetOr(CM.DefaultDeliveryMethod);
        Outcome(Ok(SendSummary(|mine|, CountSuccesses(rs), CountFailures(rs), rs)),
                es[i := es[i].(doc := e.(participants := ApplyMarks(e.participants, SendMarks(rs, |rs|))))],
                RecordSends(cs, req.eventId, rs, |rs|, channel, req.now))
  }

  /** The mails the send handler hands to the transport. */
  function SendingMails(es: seq<StoredEvent>, cs: seq<CM.Certificate>, req: SendRequest,
                        svc: ES.EmailServiceState): seq<ES.Mail>
  {
    match OwnedEvent(es, req.eventId, req.userId, NotAuthorizedToSend)
    case Err(_) => []
    case Ok(i) =>
      var e := es[i].doc;
      var mine := EventCertificates(cs, req.eventId);
      if |mine| == 0 then []
      else
        var contacts := Contacts(e.participants);
        svc.BulkMails(contacts, Slots(mine), MailInput(e, req), req.custom, |contacts|)
  }

  /** The handler's loop over the adapter's results. */
  method RecordResults(db: Database, e: EM.Event, eventId: string, rs: seq<ES.EmailResult>,
                       channel: CM.DeliveryMethod, now: int)
    returns (ps: seq<EM.Participant>)
    modifies db
    ensures ps == ApplyMarks(e.participants, SendMarks(rs, |rs|))
    ensures db.certificates == RecordSends(old(db.certificates), eventId, rs, |rs|, channel, now)
    ensures db.events == old(db.events)
  {
    ps := e.participants;
    ghost var before := db.certificates;
    for k := 0 to |rs|
      invariant ps == ApplyMarks(e.participants, SendMarks(rs, k))
      invariant db.certificates == RecordSends(before, eventId, rs, k, channel, now)
      invariant db.events == old(db.events)
    {
      db.certificates := RecordSend(db.certificates, eventId, rs[k], channel, now);
      ApplyMarksSnoc(e.participants, SendMarks(rs, k), SendMark(rs[k]));
      ps := MarkFirst(ps, SendMark(rs[k]));
    }
  }

  /** `POST /send/:eventId`: the guards, the bulk email send, then the records and the roster saved. */
  method SendCertificates(db: Database, svc: ES.EmailServiceState, req: SendRequest)
    returns (r: Result<SendSummary, Rejection>)
    modifies db, svc.transporter
    ensures Outcome(r, db.events, db.certificates)
            == Sending(old(db.events), old(db.certificates), req, svc, |old(svc.transporter.attempts)|)
    ensures svc.transporter.attempts
            == old(svc.transporter.attempts) + SendingMails(old(db.events), old(db.certificates), req, svc)
  {
    var owned := OwnedEvent(db.events, req.eventId, req.userId, NotAuthorizedToSend);
    if owned.Err? {
      assert svc.transporter.attempts + [] == svc.transporter.attempts;
      return Err(owned.error);
    }
    var i := owned.value;
    var e := db.events[i].doc;
    var mine := EventCertificates(db.certificates, req.eventId);
    if |mine| == 0 {
      assert svc.transporter.attempts + [] == svc.transporter.attempts;
      return Err(Rejection(400, NoCertificates));
    }
    var contacts := Contacts(e.participants);
    var rs, _ := svc.SendBulkCertificates(contacts, Slots(mine), MailInput(e, req), req.custom);
    var ps := RecordResults(db, e, req.eventId, rs, req.deliveryMethod.GetOr(CM.DefaultDeliveryMethod), req.now);
    db.events := db.events[i := db.events[i].(doc := e.(participants := ps))];
    r := Ok(SendSummary(|mine|, CountSuccesses(rs), CountFailures(rs), rs));
  }

  // ------------------------------------------------------- sending facts

  /** `sent + failed` is the number of results, one per roster entry. */
  lemma SendCounts(es: seq<StoredEvent>, cs: seq<CM.Certificate>, req: SendRequest,
                   svc: ES.EmailServiceState, base: nat)
    requires Sending(es, cs, req, svc, base).response.Ok?
    ensures var s := Sending(es, cs, req, svc, base).response.value;
            && s.sent + s.failed == |s.results|
            && |s.results| == |es[FindEvent(es, req.eventId).value].doc.participants|
            && s.totalCertificates == |EventCertificates(cs, req.eventId)|
  {
    SuccessesPlusFailures(Sending(es, cs, req, svc, base).response.value.results);
  }

  /**
   * The result for roster entry j is its own, and it depends on position:
   * an entry with no certificate at the same index of the event's records
   * fails with `Certificate generation failed`, whatever records exist for
   * its email; otherwise it succeeds unless the transport refuses its address.
   */
  lemma SendAlignedByPosition(es: seq<StoredEvent>, cs: seq<CM.Certificate>, req: SendRequest,
                              svc: ES.EmailServiceState, base: nat, j: nat)
    requires Sending(es, cs, req, svc, base).response.Ok?
    requires j < |es[FindEvent(es, req.eventId).value].doc.participants|
    ensures var p := es[FindEvent(es, req.eventId).value].doc.participants[j];
            var r := Sending(es, cs, req, svc, base).response.value.results[j];
            var mine := EventCertificates(cs, req.eventId);
            && r.participant == ES.Contact(p.name, p.email)
            && (j >= |mine| ==> !r.success && r.error == Some(ES.GenerationFailed))
            && (j < |mine| ==> (r.success <==> p.email !in svc.transporter.refuses))
  {
    var e := es[FindEvent(es, req.eventId).value].doc;
    var mine := EventCertificates(cs, req.eventId);
    var contacts := Contacts(e.participants);
    svc.BulkResultsAligned(contacts, Slots(mine), MailInput(e, req), req.custom, base, |contacts|, j);
  }

  lemma AlignedMails(svc: ES.EmailServiceState, contacts: seq<ES.Contact>, mine: seq<CM.Certificate>,
                      ev: ES.MailEvent, custom: Option<ES.CustomTemplate>, k: nat)
    requires k <= |contacts|
    ensures var ms := svc.BulkMails(contacts, Slots(mine), ev, custom, k);
            && |ms| == (if k <= |mine| then k else |mine|)
            && forall i :: 0 <= i < |ms| ==>
                 ms[i].to == contacts[i].email
                 && ms[i].attachments == [ES.Attachment(ES.AttachmentFileName(contacts[i].name), mine[i].filePath, ES.AttachmentCid)]
  {
    svc.BulkMailsByPosition(contacts, Slots(mine), ev, custom, k);
  }

  /**
   * The i-th mail goes to the i-th roster entry with the file of the i-th
   * record of the event, whoever that record was issued to; there are as
   * many mails as the shorter of the two lists.
   */
  lemma SendMailsByPosition(es: seq<StoredEvent>, cs: seq<CM.Certificate>, req: SendRequest,
                            svc: ES.EmailServiceState)
    requires OwnedEvent(es, req.eventId, req.userId, NotAuthorizedToSend).Ok?
    requires |EventCertificates(cs, req.eventId)| > 0
    ensures var ps := es[FindEvent(es, req.eventId).value].doc.participants;
            var mine := EventCertificates(cs, req.eventId);
            var ms := SendingMails(es, cs, req, svc);
            && |ms| == (if |ps| <= |mine| then |ps| else |mine|)
            && forall i :: 0 <= i < |ms| ==>
                 (ms[i].to == ps[i].email
                  && ms[i].attachments == [ES.Attachment(ES.AttachmentFileName(ps[i].name), mine[i].filePath, ES.AttachmentCid)])
  {
    var e := es[FindEvent(es, req.eventId).value].doc;
    var mine := EventCertificates(cs, req.eventId);
    var contacts := Contacts(e.participants);
    var ms := svc.BulkMails(contacts, Slots(mine), MailInput(e, req), req.custom, |contacts|);
    assert SendingMails(es, cs, req, svc) == ms;
    AlignedMails(svc, contacts, mine, MailInput(e, req), req.custom, |contacts|);
    forall i | 0 <= i < |ms|
      ensures ms[i].to == e.participants[i].email
      ensures ms[i].attachments == [ES.Attachment(ES.AttachmentFileName(e.participants[i].name), mine[i].filePath, ES.AttachmentCid)]
    {
      assert contacts[i] == ES.Contact(e.participants[i].name, e.participants[i].email);
    }
  }

  /**
   * With distinct roster emails and results aligned to the roster,
   * participant j ends up `sent` or `failed` as its own result says, and
   * nothing else about it changes.
   */
  lemma RosterMirrorsResults(ps: seq<EM.Participant>, rs: seq<ES.EmailResult>, j: nat)
    requires UniqueEmails(ps) && |rs| == |ps| && j < |ps|
    requires forall x :: 0 <= x < |rs| ==> rs[x].participant.email == ps[x].email
    ensures ApplyMarks(ps, SendMarks(rs, |rs|))[j]
         == Marked(ps[j], Mark(ps[j].email, if rs[j].success then EM.Sent else EM.Failed, None))
  {
    var ms := SendMarks(rs, |rs|);
    forall x | 0 <= x < |ms| && x != j
      ensures ms[x].email != ps[j].email
    {
      if x < j {
        assert ps[x].email != ps[j].email;
      } else {
        assert ps[j].email != ps[x].email;
      }
    }
    ApplyMarksUnique(ps, ms, j);
    OwnMarksSingle(ps[j], ms, j);
  }

  lemma SendMirrorsRoster(es: seq<StoredEvent>, cs: seq<CM.Certificate>, req: SendRequest,
                          svc: ES.EmailServiceState, base: nat, j: nat)
    requires Sending(es, cs, req, svc, base).response.Ok?
    requires UniqueEmails(es[FindEvent(es, req.eventId).value].doc.participants)
    requires j < |es[FindEvent(es, req.eventId).value].doc.participants|
    ensures var i := FindEvent(es, req.eventId).value;
            var p := es[i].doc.participants[j];
            var o := Sending(es, cs, req, svc, base);
            o.events[i].doc.participants[j]
              == Marked(p, Mark(p.email, if o.response.value.results[j].success then EM.Sent else EM.Failed, None))
  {
    var i := FindEvent(es, req.eventId).value;
    var ps := es[i].doc.participants;
    var rs := Sending(es, cs, req, svc, base).response.value.results;
    forall x | 0 <= x < |rs|
      ensures rs[x].participant.email == ps[x].email
    {
      SendAlignedByPosition(es, cs, req, svc, base, x);
    }
    RosterMirrorsResults(ps, rs, j);
  }

  /** The sum of the records' delivery attempts. */
  function TotalAttempts(cs: seq<CM.Certificate>): nat {
    if cs == [] then 0 else cs[0].deliveryAttempts + TotalAttempts(cs[1..])
  }

  lemma {:induction false} TotalAttemptsUpdate(cs: seq<CM.Certificate>, i: nat, c: CM.Certificate)
    requires i < |cs|
    ensures TotalAttempts(cs[i := c]) + cs[i].deliveryAttempts == TotalAttempts(cs) + c.deliveryAttempts
  {
    if i > 0 {
      assert cs[i := c][1..] == cs[1..][i - 1 := c];
      TotalAttemptsUpdate(cs[1..], i - 1, c);
    }
  }

  /** Two record lists that agree on each record's event and participant. */
  predicate SameKeys(a: seq<CM.Certificate>, b: seq<CM.Certificate>) {
    |a| == |b| && forall j :: 0 <= j < |a| ==> a[j].event == b[j].event && a[j].participant == b[j].participant
  }

  lemma {:induction false} FirstCertificateKeys(a: seq<CM.Certificate>, b: seq<CM.Certificate>, eventId: string, email: string)
    requires SameKeys(a, b)
    ensures FirstCertificate(a, eventId, email) == FirstCertificate(b, eventId, email)
  {
    if a != [] {
      FirstCertificateKeys(a[1..], b[1..], eventId, email);
    }
  }

  /** The results of the first k sends that find a record of the event. */
  function Matched(cs: seq<CM.Certificate>, eventId: string, rs: seq<ES.EmailResult>, k: nat): nat
    requires k <= |rs|
  {
    if k == 0 then 0
    else Matched(cs, eventId, rs, k - 1)
         + (if FirstCertificate(cs, eventId, rs[k - 1].participant.email).Some? then 1 else 0)
  }

  /**
   * Recording the sends keeps every record's event and participant, leaves the
   * records of other events as they were, and adds exactly one delivery attempt
   * per result that finds a record of the event.
   */
  lemma {:induction false} RecordSendsAccounting(cs: seq<CM.Certificate>, eventId: string, rs: seq<ES.EmailResult>,
                                                 k: nat, channel: CM.DeliveryMethod, now: int)
    requires k <= |rs|
    ensures var cs' := RecordSends(cs, eventId, rs, k, channel, now);
            && SameKeys(cs, cs')
            && (forall j :: 0 <= j < |cs| && cs[j].event != eventId ==> cs'[j] == cs[j])
            && TotalAttempts(cs') == TotalAttempts(cs) + Matched(cs, eventId, rs, k)
  {
    if k > 0 {
      RecordSendsAccounting(cs, eventId, rs, k - 1, channel, now);
      var prev := RecordSends(cs, eventId, rs, k - 1, channel, now);
      var email := rs[k - 1].participant.email;
      FirstCertificateKeys(prev, cs, eventId, email);
      match FirstCertificate(prev, eventId, email)
      case None =>
      case Some(i) =>
        TotalAttemptsUpdate(prev, i, Attempted(prev[i], rs[k - 1].success, channel, now));
    }
  }

  /**
   * After a send, the records of other events are untouched and the event's
   * records gained exactly one delivery attempt per result that found one.
   */
  lemma SendAttempts(es: seq<StoredEvent>, cs: seq<CM.Certificate>, req: SendRequest,
                     svc: ES.EmailServiceState, base: nat)
    requires Sending(es, cs, req, svc, base).response.Ok?
    ensures var o := Sending(es, cs, req, svc, base);
            var rs := o.response.value.results;
            && (forall j :: 0 <= j < |cs| && cs[j].event != req.eventId ==> o.certificates[j] == cs[j])
            && TotalAttempts(o.certificates) == TotalAttempts(cs) + Matched(cs, req.eventId, rs, |rs|)
  {
    var rs := Sending(es, cs, req, svc, base).response.value.results;
    RecordSendsAccounting(cs, req.eventId, rs, |rs|, req.deliveryMethod.GetOr(CM.DefaultDeliveryMethod), req.now);
  }

  // ------------------------------------------------- verify and download

  /** `Certificate.findOne({certificateId})`: the position of the first record with the id. */
  function FindCertificate(cs: seq<CM.Certificate>, certificateId: string): (r: Option<nat>)
    ensures r.Some? ==> r.value < |cs| && cs[r.value].certificateId == certificateId
    ensures r.Some? ==> forall j :: 0 <= j < r.value ==> cs[j].certificateId != certificateId
    ensures r.None? ==> forall j :: 0 <= j < |cs| ==> cs[j].certificateId != certificateId
  {
    FirstIndex(cs, (c: CM.Certificate) => c.certificateId == certificateId)
  }

  /** `GET /verify/:certificateId`: the record with the id, or 404 when none has it. */
  function Verify(cs: seq<CM.Certificate>, certificateId: string): (r: Result<CM.Certificate, Rejection>)
    ensures r.Ok? <==> exists j :: 0 <= j < |cs| && cs[j].certificateId == certificateId
    ensures r.Ok? ==> r.value.certificateId == certificateId && r.value in cs
    ensures r.Err? ==> r.error == Rejection(404, NotFoundOrInvalid)
  {
    match FindCertificate(cs, certificateId)
    case Some(i) => Ok(cs[i])
    case None => Err(Rejection(404, NotFoundOrInvalid))
  }

  /** `Certificate_<name with each whitespace run as _>.pdf`. */
  function DownloadName(name: string): (n: string)
    ensures n == "Certificate_" + ReplaceSpaceRuns(name, "_") + ".pdf"
    ensures NoSpace(n)
  {
    ReplaceSpaceRunsNoSpace(name, "_");
    "Certificate_" + ReplaceSpaceRuns(name, "_") + ".pdf"
  }

  /**
   * `GET /download/:certificateId`: the stored file and the name it is
   * offered under; 404 when no record has the id, or when its file is not
   * among the files present.
   */
  function Download(cs: seq<CM.Certificate>, certificateId: string, present: set<string>): (r: Result<(string, string), Rejection>)
    ensures r.Ok? <==> FindCertificate(cs, certificateId).Some? && cs[FindCertificate(cs, certificateId).value].filePath in present
    ensures FindCertificate(cs, certificateId).None? ==> r == Err(Rejection(404, CertificateNotFound))
    ensures FindCertificate(cs, certificateId).Some? && r.Err? ==> r == Err(Rejection(404, FileNotFound))
    ensures r.Ok? ==> var c := cs[FindCertificate(cs, certificateId).value];
                      r.value == (c.filePath, DownloadName(c.participant.name))
  {
    match FindCertificate(cs, certificateId)
    case None => Err(Rejection(404, CertificateNotFound))
    case Some(i) =>
      if cs[i].filePath !in present then Err(Rejection(404, FileNotFound))
      else Ok((cs[i].filePath, DownloadName(cs[i].participant.name)))
  }
}
