/**
 * The certificate document: a snapshot of the participant and event fields at
 * generation time plus the delivery bookkeeping (status, attempts, channel).
 */
module CertificateModel {
  import opened Wrappers

  datatype CertificateStatus = Generated | Sent | Delivered | Failed | Bounced
  datatype DeliveryMethod = Email | WhatsApp | Both

  const DefaultStatus: CertificateStatus := Generated
  const DefaultDeliveryMethod: DeliveryMethod := Email
  const DefaultTemplateUsed: string := "default"

  function StatusName(s: CertificateStatus): string {
    match s
    case Generated => "generated"
    case Sent => "sent"
    case Delivered => "delivered"
    case Failed => "failed"
    case Bounced => "bounced"
  }

  /** The schema's `enum: ['generated', 'sent', 'delivered', 'failed', 'bounced']` check. */
  function ParseStatus(s: string): (r: Option<CertificateStatus>)
    ensures forall st :: r == Some(st) <==> s == StatusName(st)
  {
    if s == "generated" then Some(Generated)
    else if s == "sent" then Some(Sent)
    else if s == "delivered" then Some(Delivered)
    else if s == "failed" then Some(Failed)
    else if s == "bounced" then Some(Bounced)
    else None
  }

  function DeliveryMethodName(m: DeliveryMethod): string {
    match m
    case Email => "email"
    case WhatsApp => "whatsapp"
    case Both => "both"
  }

  /** The schema's `enum: ['email', 'whatsapp', 'both']` check. */
  function ParseDeliveryMethod(s: string): (r: Option<DeliveryMethod>)
    ensures forall m :: r == Some(m) <==> s == DeliveryMethodName(m)
  {
    if s == "email" then Some(Email)
    else if s == "whatsapp" then Some(WhatsApp)
    else if s == "both" then Some(Both)
    else None
  }

  datatype ParticipantSnapshot = ParticipantSnapshot(name: string, email: string, phone: string)

  datatype CertificateData = CertificateData(
    participantName: string,
    eventTitle: string,
    eventDate: int,
    organizerName: string,
    location: string,
    certificateNumber: string)

  datatype QrCode = QrCode(data: string, image: string)

  datatype Metadata = Metadata(generatedAt: int, generatedBy: string, fileSize: nat, templateUsed: string)

  datatype Certificate = Certificate(
    certificateId: string,
    event: string,
    participant: ParticipantSnapshot,
    certificateData: CertificateData,
    qrCode: QrCode,
    filePath: string,
    status: CertificateStatus,
    deliveryAttempts: nat,
    lastDeliveryAttempt: Option<int>,
    deliveryMethod: DeliveryMethod,
    verificationUrl: string,
    metadata: Metadata,
    createdAt: int)

  /** A certificate as stored from the fields a caller supplies; the schema fills in every default. */
  function NewCertificate(
    certificateId: string, event: string, participant: ParticipantSnapshot, data: CertificateData,
    qrData: string, filePath: string, verificationUrl: string, generatedBy: string,
    templateUsed: Option<string>, now: int): (c: Certificate)
    ensures c.certificateId == certificateId && c.event == event && c.participant == participant
    ensures c.certificateData == data && c.qrCode == QrCode(qrData, "") && c.filePath == filePath
    ensures c.verificationUrl == verificationUrl && c.createdAt == now
    ensures c.status == Generated && c.deliveryAttempts == 0 && c.lastDeliveryAttempt == None
    ensures c.deliveryMethod == Email
    ensures c.metadata == Metadata(now, generatedBy, 0, templateUsed.GetOr("default"))
  {
    Certificate(certificateId, event, participant, data, QrCode(qrData, ""), filePath,
      DefaultStatus, 0, None, DefaultDeliveryMethod, verificationUrl,
      Metadata(now, generatedBy, 0, templateUsed.GetOr(DefaultTemplateUsed)), now)
  }

  // ---------------------------------------------------------------- counts

  function CountStatus(cs: seq<Certificate>, st: CertificateStatus): (n: nat)
    ensures n <= |cs|
  {
    if cs == [] then 0 else (if cs[0].status == st then 1 else 0) + CountStatus(cs[1..], st)
  }

  function CountMethod(cs: seq<Certificate>, m: DeliveryMethod): (n: nat)
    ensures n <= |cs|
  {
    if cs == [] then 0 else (if cs[0].deliveryMethod == m then 1 else 0) + CountMethod(cs[1..], m)
  }

  /** Given the five-value status enum, the per-status counts add up to the total. */
  lemma {:induction false} CountStatusPartition(cs: seq<Certificate>)
    ensures CountStatus(cs, Generated) + CountStatus(cs, Sent) + CountStatus(cs, Delivered)
      + CountStatus(cs, Failed) + CountStatus(cs, Bounced) == |cs|
  {
    if cs != [] {
      CountStatusPartition(cs[1..]);
    }
  }

  /** Given the three-value channel enum, the per-method counts add up to the total. */
  lemma {:induction false} CountMethodPartition(cs: seq<Certificate>)
    ensures CountMethod(cs, Email) + CountMethod(cs, WhatsApp) + CountMethod(cs, Both) == |cs|
  {
    if cs != [] {
      CountMethodPartition(cs[1..]);
    }
  }

  lemma {:induction false} CountStatusAppend(a: seq<Certificate>, b: seq<Certificate>, st: CertificateStatus)
    ensures CountStatus(a + b, st) == CountStatus(a, st) + CountStatus(b, st)
  {
    if a == [] {
      assert a + b == b;
    } else {
      assert (a + b)[1..] == a[1..] + b;
      CountStatusAppend(a[1..], b, st);
    }
  }
}
