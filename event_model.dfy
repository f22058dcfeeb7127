/**
 * The event document: its enumerations, defaults, length limits and the
 * participant roster it owns.
 */
module EventModel {
  import opened Wrappers
  import opened Text

  datatype EventType = Paid | Free
  datatype Layout = Classic | Modern | Minimal
  datatype EventStatus = Draft | Active | Completed | Cancelled
  /** A participant's certificate progress. Unlike a certificate, it has no `bounced`. */
  datatype ParticipantStatus = Pending | Generated | Sent | Delivered | Failed

  const TitleMaxLength: nat := 100
  const DescriptionMaxLength: nat := 1000
  const DefaultPrice: int := 0
  const DefaultMaxParticipants: int := 1000
  const DefaultCurrentParticipants: int := 0
  const DefaultLayout: Layout := Classic
  const DefaultStatus: EventStatus := Draft
  const DefaultParticipantStatus: ParticipantStatus := Pending
  const DefaultEmailSubject: string := "Your Event Certificate - {eventTitle}"
  const DefaultEmailBody: string := "Congratulations! Please find your certificate attached."

  // ------------------------------------------------------- enum spellings

  function EventTypeName(t: EventType): string {
    match t
    case Paid => "paid"
    case Free => "free"
  }

  /** The schema's `enum: ['paid', 'free']` check. */
  function ParseEventType(s: string): (r: Option<EventType>)
    ensures forall t :: r == Some(t) <==> s == EventTypeName(t)
  {
    if s == "paid" then Some(Paid) else if s == "free" then Some(Free) else None
  }

  function LayoutName(l: Layout): string {
    match l
    case Classic => "classic"
    case Modern => "modern"
    case Minimal => "minimal"
  }

  /** The schema's `enum: ['classic', 'modern', 'minimal']` check. */
  function ParseLayout(s: string): (r: Option<Layout>)
    ensures forall l :: r == Some(l) <==> s == LayoutName(l)
  {
    if s == "classic" then Some(Classic)
    else if s == "modern" then Some(Modern)
    else if s == "minimal" then Some(Minimal)
    else None
  }

  function EventStatusName(s: EventStatus): string {
    match s
    case Draft => "draft"
    case Active => "active"
    case Completed => "completed"
    case Cancelled => "cancelled"
  }

  /** The schema's `enum: ['draft', 'active', 'completed', 'cancelled']` check. */
  function ParseEventStatus(s: string): (r: Option<EventStatus>)
    ensures forall st :: r == Some(st) <==> s == EventStatusName(st)
  {
    if s == "draft" then Some(Draft)
    else if s == "active" then Some(Active)
    else if s == "completed" then Some(Completed)
    else if s == "cancelled" then Some(Cancelled)
    else None
  }

  function ParticipantStatusName(s: ParticipantStatus): string {
    match s
    case Pending => "pending"
    case Generated => "generated"
    case Sent => "sent"
    case Delivered => "delivered"
    case Failed => "failed"
  }

  /** The roster's `enum: ['pending', 'generated', 'sent', 'delivered', 'failed']` check; `bounced` is refused. */
  function ParseParticipantStatus(s: string): (r: Option<ParticipantStatus>)
    ensures forall st :: r == Some(st) <==> s == ParticipantStatusName(st)
    ensures s == "bounced" ==> r == None
  {
    if s == "pending" then Some(Pending)
    else if s == "generated" then Some(Generated)
    else if s == "sent" then Some(Sent)
    else if s == "delivered" then Some(Delivered)
    else if s == "failed" then Some(Failed)
    else None
  }

  // ------------------------------------------------------------ documents

  datatype Participant = Participant(
    name: string,
    email: string,
    phone: string,
    registrationDate: int,
    certificateStatus: ParticipantStatus,
    certificateId: string,
    qrCode: string)

  /** Name and email are required (a required string must be non-empty). */
  predicate ValidParticipant(p: Participant) {
    p.name != "" && p.email != ""
  }

  /** A roster entry stored from a name, an email and an optional phone: the schema fills the rest. */
  function NewParticipant(name: string, email: string, phone: Option<string>, registrationDate: int): (p: Participant)
    ensures p.name == name && p.email == email && p.registrationDate == registrationDate
    ensures p.phone == phone.GetOr("")
    ensures p.certificateStatus == Pending && p.certificateId == "" && p.qrCode == ""
    ensures name != "" && email != "" ==> ValidParticipant(p)
  {
    Participant(name, email, phone.GetOr(""), registrationDate, DefaultParticipantStatus, "", "")
  }

  datatype CertificateTemplate = CertificateTemplate(
    backgroundImage: string,
    logo: string,
    primaryColor: string,
    secondaryColor: string,
    fontFamily: string,
    layout: Layout)

  const DefaultCertificateTemplate: CertificateTemplate :=
    CertificateTemplate("", "", "#2563eb", "#1e40af", "Arial", DefaultLayout)

  datatype EmailTemplate = EmailTemplate(subject: string, body: string)

  datatype Settings = Settings(
    autoSendCertificates: bool,
    includeQRCode: bool,
    emailTemplate: EmailTemplate)

  datatype Event = Event(
    title: string,
    description: string,
    organizer: string,
    eventDate: int,
    location: string,
    eventType: EventType,
    price: int,
    maxParticipants: int,
    currentParticipants: int,
    certificateTemplate: CertificateTemplate,
    status: EventStatus,
    participants: seq<Participant>,
    settings: Settings,
    createdAt: int)

  /** What a saved event satisfies: trimmed required strings within their limits, a valid roster. */
  predicate ValidEvent(e: Event) {
    && e.title == Trim(e.title) && e.title != "" && Utf16Length(e.title) <= TitleMaxLength
    && e.description == Trim(e.description) && e.description != ""
    && Utf16Length(e.description) <= DescriptionMaxLength
    && e.location == Trim(e.location) && e.location != ""
    && e.organizer != ""
    && forall i :: 0 <= i < |e.participants| ==> ValidParticipant(e.participants[i])
  }

  // ------------------------------------------------------------ validation

  datatype ValidationError = Required(path: string) | TooLong(path: string, max: nat) | NotInEnum(path: string, value: string)

  /**
   * A `trim: true, required: true, maxlength: max` string path: the value is
   * trimmed first, then must be non-empty and at most max characters long.
   */
  function CastTrimmed(path: string, raw: Option<string>, max: Option<nat>): (r: Result<string, ValidationError>)
    ensures r.Ok? <==> raw.Some? && Trim(raw.value) != ""
                       && (max.Some? ==> Utf16Length(Trim(raw.value)) <= max.value)
    ensures r.Ok? ==> r.value == Trim(raw.value) && NoOuterSpace(r.value)
    ensures r.Err? && (raw.None? || Trim(raw.value) == "") ==> r.error == Required(path)
    ensures r.Err? && raw.Some? && Trim(raw.value) != "" ==> max.Some? && r.error == TooLong(path, max.value)
  {
    if raw.None? then Err(Required(path))
    else
      var v := Trim(raw.value);
      TrimmedHasNoOuterSpace(raw.value);
      if v == "" then Err(Required(path))
      else if max.Some? && Utf16Length(v) > max.value then Err(TooLong(path, max.value))
      else Ok(v)
  }

  /**
   * `maxlength` counts UTF-16 code units: a title of 51 characters from beyond
   * the Basic Multilingual Plane is 102 units long and is refused as too long.
   */
  lemma AstralTitleTooLong(t: string)
    requires |t| == 51 && forall i :: 0 <= i < |t| ==> Astral(t[i])
    ensures CastTrimmed("title", Some(t), Some(TitleMaxLength)) == Err(TooLong("title", TitleMaxLength))
  {
    assert !IsSpace(t[0]) && !IsSpace(t[|t| - 1]);
    TrimIdentity(t);
  }

  // ---------------------------------------------------------------- counts

  function CountStatus(ps: seq<Participant>, st: ParticipantStatus): (n: nat)
    ensures n <= |ps|
  {
    if ps == [] then 0
    else (if ps[0].certificateStatus == st then 1 else 0) + CountStatus(ps[1..], st)
  }

  /** `ps.filter(p => p.certificateStatus !== st).length` */
  function CountOtherThan(ps: seq<Participant>, st: ParticipantStatus): (n: nat)
    ensures n <= |ps|
  {
    if ps == [] then 0
    else (if ps[0].certificateStatus != st then 1 else 0) + CountOtherThan(ps[1..], st)
  }

  lemma {:induction false} CountStatusComplement(ps: seq<Participant>, st: ParticipantStatus)
    ensures CountStatus(ps, st) + CountOtherThan(ps, st) == |ps|
  {
    if ps != [] {
      CountStatusComplement(ps[1..], st);
    }
  }

  /** The five per-status counts add up to the roster size. */
  lemma {:induction false} CountStatusPartition(ps: seq<Participant>)
    ensures CountStatus(ps, Pending) + CountStatus(ps, Generated) + CountStatus(ps, Sent)
      + CountStatus(ps, Delivered) + CountStatus(ps, Failed) == |ps|
  {
    if ps != [] {
      CountStatusPartition(ps[1..]);
    }
  }

  lemma {:induction false} CountStatusAppend(a: seq<Participant>, b: seq<Participant>, st: ParticipantStatus)
    ensures CountStatus(a + b, st) == CountStatus(a, st) + CountStatus(b, st)
  {
    if a == [] {
      assert a + b == b;
    } else {
      assert (a + b)[1..] == a[1..] + b;
      CountStatusAppend(a[1..], b, st);
    }
  }
}
