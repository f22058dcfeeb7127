/**
 * The event routes stripped of HTTP and persistence: creating an event from
 * a request body (defaults merged, then the schema's checks), listing an
 * organizer's events a page at a time, adding participants to a roster and
 * tallying a roster by status.
 */
module EventRoutes {
  import opened Wrappers
  import opened Text
  import opened Tally
  import opened Store
  import opened EventModel

  const ParticipantsRequired: string := "Participants array is required"
  const AddForbidden: string := "Not authorized to add participants to this event"
  const NoValidParticipants: string := "No valid participants found"
  const ViewParticipantsForbidden: string := "Not authorized to view participants for this event"
  const FetchFailed: string := "Failed to fetch events"
  const DefaultPage: int := 1
  const DefaultLimit: nat := 10

  // ---------------------------------------------------------------- create

  /** The `certificateTemplate` object of a request; an absent key is None. */
  datatype TemplateInput = TemplateInput(
    backgroundImage: Option<string>, logo: Option<string>, primaryColor: Option<string>,
    secondaryColor: Option<string>, fontFamily: Option<string>, layout: Option<string>)

  datatype EmailTemplateInput = EmailTemplateInput(subject: Option<string>, body: Option<string>)

  /** The `settings` object of a request. */
  datatype SettingsInput = SettingsInput(
    autoSendCertificates: Option<bool>, includeQRCode: Option<bool>, emailTemplate: Option<EmailTemplateInput>)

  /** The body of `POST /`; the type is still the raw string. */
  datatype EventInput = EventInput(
    title: Option<string>, description: Option<string>, eventDate: Option<int>, location: Option<string>,
    eventType: Option<string>, price: Option<int>, maxParticipants: Option<int>,
    certificateTemplate: Option<TemplateInput>, settings: Option<SettingsInput>)

  /** `type === 'free' ? 0 : price`, then the schema's default of 0 for a missing price. */
  function PriceOf(eventType: Option<string>, price: Option<int>): (p: int)
    ensures eventType == Some("free") ==> p == 0
    ensures eventType != Some("free") ==> p == price.GetOr(DefaultPrice)
  {
    if eventType == Some("free") then 0 else price.GetOr(DefaultPrice)
  }

  /**
   * `{...defaults, ...certificateTemplate}`: every supplied key wins, every
   * other takes its default; the layout must name one of the three layouts.
   */
  function MergeTemplate(t: Option<TemplateInput>): (r: Result<CertificateTemplate, ValidationError>)
    ensures t.None? ==> r == Ok(DefaultCertificateTemplate)
    ensures t.Some? ==>
      (r.Ok? <==> t.value.layout.None? || ParseLayout(t.value.layout.value).Some?)
      && (r.Ok? ==>
           && r.value.backgroundImage == t.value.backgroundImage.GetOr(DefaultCertificateTemplate.backgroundImage)
           && r.value.logo == t.value.logo.GetOr(DefaultCertificateTemplate.logo)
           && r.value.primaryColor == t.value.primaryColor.GetOr(DefaultCertificateTemplate.primaryColor)
           && r.value.secondaryColor == t.value.secondaryColor.GetOr(DefaultCertificateTemplate.secondaryColor)
           && r.value.fontFamily == t.value.fontFamily.GetOr(DefaultCertificateTemplate.fontFamily)
           && (t.value.layout.None? ==> r.value.layout == DefaultLayout)
           && (t.value.layout.Some? ==> LayoutName(r.value.layout) == t.value.layout.value))
  {
    match t
    case None => Ok(DefaultCertificateTemplate)
    case Some(v) =>
      var layout := if v.layout.None? then Some(DefaultLayout) else ParseLayout(v.layout.value);
      if layout.None? then Err(NotInEnum("certificateTemplate.layout", v.layout.value))
      else Ok(CertificateTemplate(
        v.backgroundImage.GetOr(DefaultCertificateTemplate.backgroundImage),
        v.logo.GetOr(DefaultCertificateTemplate.logo),
        v.primaryColor.GetOr(DefaultCertificateTemplate.primaryColor),
        v.secondaryColor.GetOr(DefaultCertificateTemplate.secondaryColor),
        v.fontFamily.GetOr(DefaultCertificateTemplate.fontFamily),
        layout.value))
  }

  /**
   * `{...defaults, ...settings}`: a supplied `emailTemplate` replaces the
   * default one whole, and its missing keys then take the schema's defaults,
   * whose subject still holds the `{eventTitle}` placeholder.
   */
  function MergeSettings(title: Option<string>, s: Option<SettingsInput>): (r: Settings)
    ensures s.None? ==> r == Settings(true, true, EmailTemplate("Your Event Certificate - " + title.GetOr("undefined"), DefaultEmailBody))
    ensures s.Some? ==> r.autoSendCertificates == s.value.autoSendCertificates.GetOr(true)
                        && r.includeQRCode == s.value.includeQRCode.GetOr(true)
    ensures s.Some? && s.value.emailTemplate.Some? ==>
      r.emailTemplate == EmailTemplate(s.value.emailTemplate.value.subject.GetOr(DefaultEmailSubject),
                                       s.value.emailTemplate.value.body.GetOr(DefaultEmailBody))
  {
    var titled := EmailTemplate("Your Event Certificate - " + title.GetOr("undefined"), DefaultEmailBody);
    match s
    case None => Settings(true, true, titled)
    case Some(v) =>
      Settings(v.autoSendCertificates.GetOr(true), v.includeQRCode.GetOr(true),
               match v.emailTemplate
               case None => titled
               case Some(t) => EmailTemplate(t.subject.GetOr(DefaultEmailSubject), t.body.GetOr(DefaultEmailBody)))
  }

  /**
   * `POST /`: the event document built from the body with the caller as
   * organizer, then the schema's checks in path order; the first failing
   * path is reported.
   */
  function CreateEvent(input: EventInput, organizer: string, now: int): (r: Result<Event, ValidationError>)
    requires organizer != ""
    ensures r.Ok? <==> && CastTrimmed("title", input.title, Some(TitleMaxLength)).Ok?
                       && CastTrimmed("description", input.description, Some(DescriptionMaxLength)).Ok?
                       && input.eventDate.Some?
                       && CastTrimmed("location", input.location, None).Ok?
                       && input.eventType.Some? && ParseEventType(input.eventType.value).Some?
                       && MergeTemplate(input.certificateTemplate).Ok?
    ensures r.Ok? ==> ValidEvent(r.value)
    ensures r.Ok? ==> && r.value.title == Trim(input.title.value)
                      && r.value.description == Trim(input.description.value)
                      && r.value.location == Trim(input.location.value)
                      && r.value.eventDate == input.eventDate.value
                      && Some(r.value.eventType) == ParseEventType(input.eventType.value)
                      && r.value.createdAt == now
                      && r.value.organizer == organizer
                      && r.value.price == PriceOf(input.eventType, input.price)
                      && r.value.maxParticipants == input.maxParticipants.GetOr(DefaultMaxParticipants)
                      && r.value.currentParticipants == DefaultCurrentParticipants
                      && r.value.status == DefaultStatus && r.value.participants == []
                      && Ok(r.value.certificateTemplate) == MergeTemplate(input.certificateTemplate)
                      && r.value.settings == MergeSettings(input.title, input.settings)
  {
    var title := CastTrimmed("title", input.title, Some(TitleMaxLength));
    var description := CastTrimmed("description", input.description, Some(DescriptionMaxLength));
    var location := CastTrimmed("location", input.location, None);
    var template := MergeTemplate(input.certificateTemplate);
    if title.Err? then Err(title.error)
    else if description.Err? then Err(description.error)
    else if input.eventDate.None? then Err(Required("eventDate"))
    else if location.Err? then Err(location.error)
    else if input.eventType.None? then Err(Required("type"))
    else if ParseEventType(input.eventType.value).None? then Err(NotInEnum("type", input.eventType.value))
    else if template.Err? then Err(template.error)
    else
      TrimIdempotent(input.title.value);
      TrimIdempotent(input.description.value);
      TrimIdempotent(input.location.value);
      Ok(Event(title.value, description.value, organizer, input.eventDate.value, location.value,
               ParseEventType(input.eventType.value).value, PriceOf(input.eventType, input.price),
               input.maxParticipants.GetOr(DefaultMaxParticipants), DefaultCurrentParticipants,
               template.value, DefaultStatus, [], MergeSettings(input.title, input.settings), now))
  }

  // -------------------------------------------------------------- listing

  datatype Page = Page(current: int, pages: Option<nat>, total: nat, events: seq<StoredEvent>)

  /** `{organizer: userId}` plus `status` when the query has a truthy one. */
  predicate Matches(e: StoredEvent, userId: string, status: Option<string>) {
    e.doc.organizer == userId && (Truthy(status) ==> EventStatusName(e.doc.status) == status.value)
  }

  /** `Event.find(query)`: the organizer's events with the queried status, in stored order. */
  function Matching(es: seq<StoredEvent>, userId: string, status: Option<string>): (r: seq<StoredEvent>)
    ensures |r| <= |es|
    ensures forall i :: 0 <= i < |r| ==> Matches(r[i], userId, status)
    ensures forall e :: e in r <==> e in es && Matches(e, userId, status)
  {
    Filter(es, (e: StoredEvent) => Matches(e, userId, status))
  }

  /** `(page - 1) * limit`, the number of matching events a page skips. */
  function Skip(page: int, limit: nat): int {
    (page - 1) * limit
  }

  /**
   * `GET /`: the page of matching events, `pages = ceil(total / limit)`.  The
   * database refuses a negative skip, which a page below 1 gives when the
   * limit is positive; a limit of 0 means no limit and a skip of 0 whatever
   * the page, and the page count is then not a number.
   */
  function ListEvents(es: seq<StoredEvent>, userId: string, status: Option<string>, page: int, limit: nat)
    : (r: Result<Page, Rejection>)
    ensures r.Err? <==> Skip(page, limit) < 0
    ensures r.Err? <==> page < 1 && limit > 0
    ensures r.Err? ==> r.error == Rejection(500, FetchFailed)
    ensures r.Ok? ==> var m := Matching(es, userId, status);
      var s := Skip(page, limit);
      && r.value.current == page
      && r.value.total == |m|
      && (limit > 0 ==> r.value.pages == Some(CeilDiv(|m|, limit)))
      && (limit == 0 ==> r.value.pages == None)
      && |r.value.events| == (if s >= |m| then 0 else if limit == 0 || limit > |m| - s then |m| - s else limit)
      && (forall i :: 0 <= i < |r.value.events| ==> s + i < |m| && r.value.events[i] == m[s + i])
  {
    if Skip(page, limit) < 0 then Err(Rejection(500, FetchFailed))
    else
      var m := Matching(es, userId, status);
      Ok(Page(page, if limit == 0 then None else Some(CeilDiv(|m|, limit)), |m|, Window(m, Skip(page, limit), limit)))
  }

  /** `.skip(skip).limit(limit)` on the matching events; a limit of 0 takes all the rest. */
  function Window(m: seq<StoredEvent>, skip: int, limit: nat): (w: seq<StoredEvent>)
    ensures limit > 0 ==> |w| <= limit
    ensures skip >= 0 ==> (|w| > 0 <==> skip < |m|)
    ensures skip >= 0 ==>
      |w| == if skip >= |m| then 0 else if limit == 0 || limit > |m| - skip then |m| - skip else limit
    ensures forall i :: 0 <= i < |w| ==> 0 <= skip + i < |m| && w[i] == m[skip + i]
  {
    var lo := if skip < 0 then 0 else if skip <= |m| then skip else |m|;
    var hi := if limit == 0 || lo + limit > |m| then |m| else lo + limit;
    if skip < 0 then [] else m[lo..hi]
  }

  /** With a positive limit, a page has events exactly when its number is at most the page count. */
  lemma PageNonEmpty(es: seq<StoredEvent>, userId: string, status: Option<string>, page: int, limit: nat)
    requires page >= 1 && limit > 0
    ensures var r := ListEvents(es, userId, status, page, limit);
            r.Ok? && (|r.value.events| > 0 <==> page <= r.value.pages.value)
  {
    var m := Matching(es, userId, status);
    var q := CeilDiv(|m|, limit);
    var p: nat := page - 1;
    if p < q {
      MultiplyMonotone(p, q - 1, limit);
    } else {
      MultiplyMonotone(q, p, limit);
    }
  }

  lemma MultiplyMonotone(a: nat, b: nat, c: nat)
    requires a <= b
    ensures a * c <= b * c
  {
  }

  // ------------------------------------------------------ add participants

  /** One entry of the request's `participants` array. */
  datatype ParticipantInput = ParticipantInput(name: Option<string>, email: Option<string>, phone: Option<string>)

  datatype AddSummary = AddSummary(totalParticipants: nat, newParticipants: nat)

  /** `p.name && p.email`. */
  predicate Acceptable(p: ParticipantInput) {
    Truthy(p.name) && Truthy(p.email)
  }

  /** `participants.filter(p => p.name && p.email).map(...)`: the roster entries to append, in order. */
  function NewEntries(input: seq<ParticipantInput>, now: int): (r: seq<Participant>)
    ensures |r| <= |input|
    ensures forall i :: 0 <= i < |r| ==> ValidParticipant(r[i]) && r[i].certificateStatus == Pending
  {
    if input == [] then []
    else
      var p := input[|input| - 1];
      NewEntries(input[..|input| - 1], now)
      + (if Acceptable(p) then [NewParticipant(p.name.value, p.email.value, Some(Or(p.phone, "")), now)] else [])
  }

  /** The entries kept are exactly the acceptable inputs, each stored `pending` with phone defaulting to `''`. */
  lemma {:induction false} NewEntriesExact(input: seq<ParticipantInput>, now: int)
    ensures |NewEntries(input, now)| == 0 <==> forall i :: 0 <= i < |input| ==> !Acceptable(input[i])
    ensures forall q :: q in NewEntries(input, now) <==>
      exists i :: 0 <= i < |input| && Acceptable(input[i])
                  && q == NewParticipant(input[i].name.value, input[i].email.value, Some(Or(input[i].phone, "")), now)
  {
    if input != [] {
      var init := input[..|input| - 1];
      NewEntriesExact(init, now);
      assert forall i :: 0 <= i < |init| ==> init[i] == input[i];
    }
  }

  /**
   * `POST /:id/participants`: 400 when the body has no array (checked before
   * the lookup), then 404 and 403, then 400 when no entry has both a name and
   * an email; otherwise the accepted entries are appended to the roster and
   * `currentParticipants` becomes the roster length.
   */
  function AddParticipants(es: seq<StoredEvent>, id: string, userId: string,
                           input: Option<seq<ParticipantInput>>, now: int)
    : (o: (Result<AddSummary, Rejection>, seq<StoredEvent>))
    ensures o.0.Err? ==> o.1 == es
    ensures input.None? ==> o.0 == Err(Rejection(400, ParticipantsRequired))
    ensures input.Some? && OwnedEvent(es, id, userId, AddForbidden).Err? ==>
      o.0 == Err(OwnedEvent(es, id, userId, AddForbidden).error)
    ensures input.Some? && OwnedEvent(es, id, userId, AddForbidden).Ok? ==>
      var i := FindEvent(es, id).value;
      var added := NewEntries(input.value, now);
      && (o.0.Err? <==> added == [])
      && (o.0.Err? ==> o.0.error == Rejection(400, NoValidParticipants))
      && (o.0.Ok? ==> && o.1 == es[i := es[i].(doc := es[i].doc.(
                                 participants := es[i].doc.participants + added,
                                 currentParticipants := |es[i].doc.participants| + |added|))]
                      && o.0.value == AddSummary(|es[i].doc.participants| + |added|, |added|))
  {
    if input.None? then (Err(Rejection(400, ParticipantsRequired)), es)
    else match OwnedEvent(es, id, userId, AddForbidden)
      case Err(rej) => (Err(rej), es)
      case Ok(i) =>
        var added := NewEntries(input.value, now);
        if added == [] then (Err(Rejection(400, NoValidParticipants)), es)
        else
          var ps := es[i].doc.participants + added;
          (Ok(AddSummary(|ps|, |added|)),
           es[i := es[i].(doc := es[i].doc.(participants := ps, currentParticipants := |ps|))])
  }

  /** The handler as it runs against the store: the roster grows in place. */
  method AddParticipantsTo(db: Database, id: string, userId: string, input: Option<seq<ParticipantInput>>, now: int)
    returns (r: Result<AddSummary, Rejection>)
    modifies db
    ensures (r, db.events) == AddParticipants(old(db.events), id, userId, input, now)
    ensures db.certificates == old(db.certificates)
  {
    if input.None? {
      return Err(Rejection(400, ParticipantsRequired));
    }
    var owned := OwnedEvent(db.events, id, userId, AddForbidden);
    if owned.Err? {
      return Err(owned.error);
    }
    var i := owned.value;
    var added := NewEntries(input.value, now);
    if added == [] {
      return Err(Rejection(400, NoValidParticipants));
    }
    var e := db.events[i].doc;
    e := e.(participants := e.participants + added);
    e := e.(currentParticipants := |e.participants|);
    db.events := db.events[i := db.events[i].(doc := e)];
    r := Ok(AddSummary(|e.participants|, |added|));
  }

  /**
   * Adding keeps every existing participant in place, appends the new ones
   * in input order, and leaves a valid event valid.
   */
  lemma AddKeepsRoster(es: seq<StoredEvent>, id: string, userId: string, input: Option<seq<ParticipantInput>>, now: int)
    requires AddParticipants(es, id, userId, input, now).0.Ok?
    ensures var i := FindEvent(es, id).value;
            var ps := AddParticipants(es, id, userId, input, now).1[i].doc.participants;
            var old_ := es[i].doc.participants;
            && |ps| >= |old_| && ps[..|old_|] == old_ && ps[|old_|..] == NewEntries(input.value, now)
            && (ValidEvent(es[i].doc) ==> ValidEvent(AddParticipants(es, id, userId, input, now).1[i].doc))
  {
    var i := FindEvent(es, id).value;
    var old_ := es[i].doc.participants;
    var added := NewEntries(input.value, now);
    assert (old_ + added)[..|old_|] == old_;
    assert (old_ + added)[|old_|..] == added;
  }

  // ------------------------------------------------------ roster tallies

  datatype RosterStats = RosterStats(
    total: nat, pending: nat, generated: nat, sent: nat, delivered: nat, failed: nat)

  /** `GET /:id/participants`: the roster and its per-status counts, which add up to its length. */
  function RosterOf(es: seq<StoredEvent>, id: string, userId: string)
    : (r: Result<(seq<Participant>, RosterStats), Rejection>)
    ensures r.Err? <==> OwnedEvent(es, id, userId, ViewParticipantsForbidden).Err?
    ensures r.Err? ==> r.error == OwnedEvent(es, id, userId, ViewParticipantsForbidden).error
    ensures r.Ok? ==> var s := r.value.1;
      && r.value.0 == es[FindEvent(es, id).value].doc.participants
      && s.total == |r.value.0|
      && s.pending == CountStatus(r.value.0, Pending) && s.generated == CountStatus(r.value.0, Generated)
      && s.sent == CountStatus(r.value.0, Sent) && s.delivered == CountStatus(r.value.0, Delivered)
      && s.failed == CountStatus(r.value.0, Failed)
      && s.pending + s.generated + s.sent + s.delivered + s.failed == s.total
  {
    match OwnedEvent(es, id, userId, ViewParticipantsForbidden)
    case Err(rej) => Err(rej)
    case Ok(i) =>
      var ps := es[i].doc.participants;
      CountStatusPartition(ps);
      Ok((ps, RosterStats(|ps|, CountStatus(ps, Pending), CountStatus(ps, Generated), CountStatus(ps, Sent),
                          CountStatus(ps, Delivered), CountStatus(ps, Failed))))
  }
}
