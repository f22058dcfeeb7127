/**
 * The dashboard routes stripped of HTTP and persistence: the organizer's
 * overview, one event's analytics, the performance metrics and the daily
 * delivery trends.  Counts are filters over the stored records; the trends
 * are a dictionary filled in one pass.
 */
module DashboardRoutes {
  import opened Wrappers
  import opened Tally
  import opened Store
  import EM = EventModel
  import CM = CertificateModel

  const AnalyticsForbidden: string := "Not authorized to view analytics for this event"
  /** Milliseconds in a UTC day: `toISOString().split('T')[0]` names the day `createdAt / MsPerDay`. */
  const MsPerDay: nat := 86400000
  const TrendWindowDays: nat := 30

  // ------------------------------------------------------------- selections

  /** `Event.find({organizer: userId})`, in stored order. */
  function EventsOf(es: seq<StoredEvent>, userId: string): (r: seq<StoredEvent>)
    ensures forall i :: 0 <= i < |r| ==> r[i].doc.organizer == userId
    ensures forall e :: e in r <==> e in es && e.doc.organizer == userId
  {
    Filter(es, (e: StoredEvent) => e.doc.organizer == userId)
  }

  /** The ids of the given events. */
  function IdsOf(es: seq<StoredEvent>): (ids: set<string>)
    ensures forall e :: e in es ==> e.id in ids
    ensures forall id :: id in ids ==> exists e :: e in es && e.id == id
  {
    set i | 0 <= i < |es| :: es[i].id
  }

  /** `Certificate.find({event: {$in: ids}})`, in stored order. */
  function CertificatesIn(cs: seq<CM.Certificate>, ids: set<string>): (r: seq<CM.Certificate>)
    ensures forall i :: 0 <= i < |r| ==> r[i].event in ids
    ensures forall c :: c in r <==> c in cs && c.event in ids
  {
    Filter(cs, (c: CM.Certificate) => c.event in ids)
  }

  // ----------------------------------------------------------------- sums

  /** `events.reduce((sum, event) => sum + event.participants.length, 0)`. */
  function TotalParticipants(es: seq<StoredEvent>): nat {
    if es == [] then 0 else |es[0].doc.participants| + TotalParticipants(es[1..])
  }

  /** The participants with status st, over all the events. */
  function ParticipantsWithStatus(es: seq<StoredEvent>, st: EM.ParticipantStatus): nat {
    if es == [] then 0 else EM.CountStatus(es[0].doc.participants, st) + ParticipantsWithStatus(es[1..], st)
  }

  /** Across the organizer's events, the roster statuses partition the participant total. */
  lemma {:induction false} TotalParticipantsByStatus(es: seq<StoredEvent>)
    ensures TotalParticipants(es)
            == ParticipantsWithStatus(es, EM.Pending) + ParticipantsWithStatus(es, EM.Generated)
               + ParticipantsWithStatus(es, EM.Sent) + ParticipantsWithStatus(es, EM.Delivered)
               + ParticipantsWithStatus(es, EM.Failed)
  {
    if es != [] {
      EM.CountStatusPartition(es[0].doc.participants);
      TotalParticipantsByStatus(es[1..]);
    }
  }

  function CountEventStatus(es: seq<StoredEvent>, st: EM.EventStatus): (n: nat)
    ensures n <= |es|
  {
    if es == [] then 0 else (if es[0].doc.status == st then 1 else 0) + CountEventStatus(es[1..], st)
  }

  lemma {:induction false} EventStatusPartition(es: seq<StoredEvent>)
    ensures CountEventStatus(es, EM.Draft) + CountEventStatus(es, EM.Active)
            + CountEventStatus(es, EM.Completed) + CountEventStatus(es, EM.Cancelled) == |es|
  {
    if es != [] {
      EventStatusPartition(es[1..]);
    }
  }

  // ---------------------------------------------------------------- overview

  datatype Overview = Overview(
    totalEvents: nat, activeEvents: nat, completedEvents: nat, totalParticipants: nat,
    totalCertificates: nat, sentCertificates: nat, deliveredCertificates: nat, deliveryRate: nat)

  /** `GET /stats`: the organizer's events and their certificates, counted. */
  function Stats(es: seq<StoredEvent>, cs: seq<CM.Certificate>, userId: string): (o: Overview)
    ensures var mine := EventsOf(es, userId);
            var certs := CertificatesIn(cs, IdsOf(mine));
            && o.totalEvents == |mine|
            && o.activeEvents == CountEventStatus(mine, EM.Active)
            && o.completedEvents == CountEventStatus(mine, EM.Completed)
            && o.totalParticipants == TotalParticipants(mine)
            && o.totalCertificates == |certs|
            && o.sentCertificates == CM.CountStatus(certs, CM.Sent)
            && o.deliveredCertificates == CM.CountStatus(certs, CM.Delivered)
    ensures o.activeEvents + o.completedEvents <= o.totalEvents
    ensures o.sentCertificates + o.deliveredCertificates <= o.totalCertificates
    ensures o.deliveryRate == RoundedPercent(o.deliveredCertificates, o.totalCertificates)
    ensures o.deliveryRate <= 100
  {
    var mine := EventsOf(es, userId);
    var certs := CertificatesIn(cs, IdsOf(mine));
    EventStatusPartition(mine);
    CM.CountStatusPartition(certs);
    var delivered := CM.CountStatus(certs, CM.Delivered);
    assert delivered <= |certs|;
    Overview(|mine|, CountEventStatus(mine, EM.Active), CountEventStatus(mine, EM.Completed),
             TotalParticipants(mine), |certs|, CM.CountStatus(certs, CM.Sent), delivered,
             RoundedPercent(delivered, |certs|))
  }

  // --------------------------------------------------------------- analytics

  datatype CertificateStats = CertificateStats(
    total: nat, generated: nat, sent: nat, delivered: nat, failed: nat, bounced: nat)

  datatype ParticipantStats = ParticipantStats(
    total: nat, withCertificates: nat, pending: nat, generated: nat, sent: nat, delivered: nat, failed: nat)

  datatype DeliveryMethods = DeliveryMethods(email: nat, whatsapp: nat, both: nat)

  datatype Analytics = Analytics(
    certificateStats: CertificateStats, participantStats: ParticipantStats, deliveryMethods: DeliveryMethods)

  /** The certificate part of one event's analytics. */
  function CertificateStatsOf(certs: seq<CM.Certificate>): (s: CertificateStats)
    ensures s.total == |certs|
    ensures && s.generated == CM.CountStatus(certs, CM.Generated) && s.sent == CM.CountStatus(certs, CM.Sent)
            && s.delivered == CM.CountStatus(certs, CM.Delivered) && s.failed == CM.CountStatus(certs, CM.Failed)
            && s.bounced == CM.CountStatus(certs, CM.Bounced)
    ensures s.generated + s.sent + s.delivered + s.failed + s.bounced == s.total
  {
    CM.CountStatusPartition(certs);
    CertificateStats(|certs|, CM.CountStatus(certs, CM.Generated), CM.CountStatus(certs, CM.Sent),
                     CM.CountStatus(certs, CM.Delivered), CM.CountStatus(certs, CM.Failed),
                     CM.CountStatus(certs, CM.Bounced))
  }

  /** The roster part: `withCertificates` is every participant not `pending`. */
  function ParticipantStatsOf(ps: seq<EM.Participant>): (s: ParticipantStats)
    ensures s.total == |ps|
    ensures && s.pending == EM.CountStatus(ps, EM.Pending) && s.generated == EM.CountStatus(ps, EM.Generated)
            && s.sent == EM.CountStatus(ps, EM.Sent) && s.delivered == EM.CountStatus(ps, EM.Delivered)
            && s.failed == EM.CountStatus(ps, EM.Failed)
    ensures s.withCertificates + s.pending == s.total
    ensures s.pending + s.generated + s.sent + s.delivered + s.failed == s.total
  {
    EM.CountStatusComplement(ps, EM.Pending);
    EM.CountStatusPartition(ps);
    ParticipantStats(|ps|, EM.CountOtherThan(ps, EM.Pending), EM.CountStatus(ps, EM.Pending),
                     EM.CountStatus(ps, EM.Generated), EM.CountStatus(ps, EM.Sent),
                     EM.CountStatus(ps, EM.Delivered), EM.CountStatus(ps, EM.Failed))
  }

  function DeliveryMethodsOf(certs: seq<CM.Certificate>): (m: DeliveryMethods)
    ensures && m.email == CM.CountMethod(certs, CM.Email) && m.whatsapp == CM.CountMethod(certs, CM.WhatsApp)
            && m.both == CM.CountMethod(certs, CM.Both)
    ensures m.email + m.whatsapp + m.both == |certs|
  {
    CM.CountMethodPartition(certs);
    DeliveryMethods(CM.CountMethod(certs, CM.Email), CM.CountMethod(certs, CM.WhatsApp), CM.CountMethod(certs, CM.Both))
  }

  /** `GET /events/:eventId/analytics`: the guards, then the three tallies of the event. */
  function EventAnalytics(es: seq<StoredEvent>, cs: seq<CM.Certificate>, eventId: string, userId: string)
    : (r: Result<Analytics, Rejection>)
    ensures r.Err? <==> OwnedEvent(es, eventId, userId, AnalyticsForbidden).Err?
    ensures r.Err? ==> r.error == OwnedEvent(es, eventId, userId, AnalyticsForbidden).error
    ensures r.Ok? ==>
      var certs := EventCertificates(cs, eventId);
      var ps := es[FindEvent(es, eventId).value].doc.participants;
      && r.value.certificateStats == CertificateStatsOf(certs)
      && r.value.participantStats == ParticipantStatsOf(ps)
      && r.value.deliveryMethods == DeliveryMethodsOf(certs)
      && r.value.certificateStats.total == |certs|
      && r.value.participantStats.total == |ps|
      && r.value.deliveryMethods.email + r.value.deliveryMethods.whatsapp + r.value.deliveryMethods.both == |certs|
    ensures r.Ok? ==> forall c :: c in EventCertificates(cs, eventId) <==> c in cs && c.event == eventId
  {
    match OwnedEvent(es, eventId, userId, AnalyticsForbidden)
    case Err(rej) => Err(rej)
    case Ok(i) =>
      var certs := EventCertificates(cs, eventId);
      Ok(Analytics(CertificateStatsOf(certs), ParticipantStatsOf(es[i].doc.participants), DeliveryMethodsOf(certs)))
  }

  // ------------------------------------------------------------ performance

  /** `certificates.filter(c => c.status === 'failed' || c.status === 'bounced')`. */
  function FailedDeliveries(cs: seq<CM.Certificate>): (r: seq<CM.Certificate>)
    ensures forall i :: 0 <= i < |r| ==> r[i].status == CM.Failed || r[i].status == CM.Bounced
  {
    Filter(cs, (c: CM.Certificate) => c.status == CM.Failed || c.status == CM.Bounced)
  }

  /** The failed deliveries are exactly the records whose status is `failed` or `bounced`, in order. */
  lemma {:induction false} FailedDeliveriesExact(cs: seq<CM.Certificate>)
    ensures forall c :: c in FailedDeliveries(cs) <==> c in cs && (c.status == CM.Failed || c.status == CM.Bounced)
    ensures |FailedDeliveries(cs)| == CM.CountStatus(cs, CM.Failed) + CM.CountStatus(cs, CM.Bounced)
  {
    if cs != [] {
      var init := cs[..|cs| - 1];
      var last := cs[|cs| - 1];
      FailedDeliveriesExact(init);
      assert cs == init + [last];
      CM.CountStatusAppend(init, [last], CM.Failed);
      CM.CountStatusAppend(init, [last], CM.Bounced);
    }
  }

  datatype Performance = Performance(
    totalCertificatesGenerated: nat, totalSent: nat, totalDelivered: nat, deliverySuccessRate: nat,
    failedDeliveries: seq<CM.Certificate>)

  /** `GET /performance` without the float attempt average. */
  function PerformanceOf(es: seq<StoredEvent>, cs: seq<CM.Certificate>, userId: string): (p: Performance)
    ensures var certs := CertificatesIn(cs, IdsOf(EventsOf(es, userId)));
            && p.totalCertificatesGenerated == |certs|
            && p.totalSent == CM.CountStatus(certs, CM.Sent) + CM.CountStatus(certs, CM.Delivered)
            && p.totalDelivered == CM.CountStatus(certs, CM.Delivered)
            && p.failedDeliveries == FailedDeliveries(certs)
    ensures p.totalDelivered <= p.totalSent <= p.totalCertificatesGenerated
    ensures p.totalSent == 0 ==> p.deliverySuccessRate == 0
    ensures p.deliverySuccessRate <= 100
    ensures p.totalSent > 0 ==>
      2 * p.deliverySuccessRate * p.totalSent <= 200 * p.totalDelivered + p.totalSent
                                              < 2 * (p.deliverySuccessRate + 1) * p.totalSent
  {
    var certs := CertificatesIn(cs, IdsOf(EventsOf(es, userId)));
    CM.CountStatusPartition(certs);
    var sent := CM.CountStatus(certs, CM.Sent) + CM.CountStatus(certs, CM.Delivered);
    var delivered := CM.CountStatus(certs, CM.Delivered);
    Performance(|certs|, sent, delivered, RoundedPercent(delivered, sent), FailedDeliveries(certs))
  }

  /** The reported failed-delivery count is the number of `failed` and `bounced` records. */
  lemma PerformanceFailures(es: seq<StoredEvent>, cs: seq<CM.Certificate>, userId: string)
    ensures var certs := CertificatesIn(cs, IdsOf(EventsOf(es, userId)));
            var p := PerformanceOf(es, cs, userId);
            |p.failedDeliveries| == CM.CountStatus(certs, CM.Failed) + CM.CountStatus(certs, CM.Bounced)
            && forall c :: c in p.failedDeliveries <==> c in certs && (c.status == CM.Failed || c.status == CM.Bounced)
  {
    FailedDeliveriesExact(CertificatesIn(cs, IdsOf(EventsOf(es, userId))));
  }

  // ------------------------------------------------------------------ trends

  /** One day's counters, one per certificate status. */
  datatype Bucket = Bucket(generated: nat, sent: nat, delivered: nat, failed: nat, bounced: nat)

  const EmptyBucket: Bucket := Bucket(0, 0, 0, 0, 0)

  function Day(c: CM.Certificate): int {
    c.createdAt / MsPerDay
  }

  /** `deliveryTrends[date][cert.status] + 1`. */
  function Bump(b: Bucket, st: CM.CertificateStatus): Bucket {
    match st
    case Generated => b.(generated := b.generated + 1)
    case Sent => b.(sent := b.sent + 1)
    case Delivered => b.(delivered := b.delivered + 1)
    case Failed => b.(failed := b.failed + 1)
    case Bounced => b.(bounced := b.bounced + 1)
  }

  function BucketTotal(b: Bucket): nat {
    b.generated + b.sent + b.delivered + b.failed + b.bounced
  }

  /** The trends after the first k certificates: the loop's running dictionary. */
  function Trends(cs: seq<CM.Certificate>, k: nat): map<int, Bucket>
    requires k <= |cs|
  {
    if k == 0 then map[]
    else
      var t := Trends(cs, k - 1);
      var d := Day(cs[k - 1]);
      t[d := Bump(if d in t then t[d] else EmptyBucket, cs[k - 1].status)]
  }

  /** The certificates among the first k created on day d. */
  function CreatedOn(cs: seq<CM.Certificate>, d: int, k: nat): nat
    requires k <= |cs|
  {
    if k == 0 then 0 else CreatedOn(cs, d, k - 1) + (if Day(cs[k - 1]) == d then 1 else 0)
  }

  /** The certificates among the first k created on day d with status st. */
  function CreatedOnWith(cs: seq<CM.Certificate>, d: int, st: CM.CertificateStatus, k: nat): nat
    requires k <= |cs|
  {
    if k == 0 then 0
    else CreatedOnWith(cs, d, st, k - 1) + (if Day(cs[k - 1]) == d && cs[k - 1].status == st then 1 else 0)
  }

  /** A day's five per-status counts among the first k certificates. */
  function CountsOn(cs: seq<CM.Certificate>, d: int, k: nat): Bucket
    requires k <= |cs|
  {
    Bucket(CreatedOnWith(cs, d, CM.Generated, k), CreatedOnWith(cs, d, CM.Sent, k),
           CreatedOnWith(cs, d, CM.Delivered, k), CreatedOnWith(cs, d, CM.Failed, k),
           CreatedOnWith(cs, d, CM.Bounced, k))
  }

  /**
   * Each day with a certificate has a bucket and no other day has one; each
   * counter of a bucket is the number of that day's certificates with that
   * status, so the counters sum to the certificates created that day.
   */
  lemma TrendsExact(cs: seq<CM.Certificate>, k: nat)
    requires k <= |cs|
    ensures forall d :: d in Trends(cs, k) <==> exists i :: 0 <= i < k && Day(cs[i]) == d
    ensures forall d :: d in Trends(cs, k) ==>
      && Trends(cs, k)[d] == Bucket(CreatedOnWith(cs, d, CM.Generated, k), CreatedOnWith(cs, d, CM.Sent, k),
                                    CreatedOnWith(cs, d, CM.Delivered, k), CreatedOnWith(cs, d, CM.Failed, k),
                                    CreatedOnWith(cs, d, CM.Bounced, k))
      && BucketTotal(Trends(cs, k)[d]) == CreatedOn(cs, d, k)
  {
    TrendsDomain(cs, k);
    TrendsCounts(cs, k);
    forall d | d in Trends(cs, k)
      ensures BucketTotal(Trends(cs, k)[d]) == CreatedOn(cs, d, k)
    {
      CreatedOnSplit(cs, d, k);
    }
  }

  lemma {:induction false} TrendsDomain(cs: seq<CM.Certificate>, k: nat)
    requires k <= |cs|
    ensures forall d :: d in Trends(cs, k) <==> exists i :: 0 <= i < k && Day(cs[i]) == d
  {
    if k > 0 {
      TrendsDomain(cs, k - 1);
      forall d | exists i :: 0 <= i < k && Day(cs[i]) == d
        ensures d in Trends(cs, k)
      {
        var i :| 0 <= i < k && Day(cs[i]) == d;
        if i < k - 1 {
          assert d in Trends(cs, k - 1);
        }
      }
    }
  }

  lemma {:induction false} TrendsCounts(cs: seq<CM.Certificate>, k: nat)
    requires k <= |cs|
    ensures forall d :: d in Trends(cs, k) ==> Trends(cs, k)[d] == CountsOn(cs, d, k)
  {
    if k > 0 {
      TrendsCounts(cs, k - 1);
      TrendsDomain(cs, k - 1);
      var t := Trends(cs, k - 1);
      var day := Day(cs[k - 1]);
      if day !in t {
        NoneCreatedOn(cs, day, k - 1);
        assert CountsOn(cs, day, k - 1) == EmptyBucket;
      }
      forall d | d in Trends(cs, k)
        ensures Trends(cs, k)[d] == CountsOn(cs, d, k)
      {
        CountsOnStep(cs, d, k);
      }
    }
  }

  /** One more certificate bumps its own day's counter for its status and no other day's. */
  lemma CountsOnStep(cs: seq<CM.Certificate>, d: int, k: nat)
    requires 0 < k <= |cs|
    ensures CountsOn(cs, d, k)
         == if Day(cs[k - 1]) == d then Bump(CountsOn(cs, d, k - 1), cs[k - 1].status) else CountsOn(cs, d, k - 1)
  {
  }

  /** A day's certificates are split among the five statuses. */
  lemma {:induction false} CreatedOnSplit(cs: seq<CM.Certificate>, d: int, k: nat)
    requires k <= |cs|
    ensures BucketTotal(CountsOn(cs, d, k)) == CreatedOn(cs, d, k)
  {
    if k > 0 {
      CreatedOnSplit(cs, d, k - 1);
    }
  }

  lemma {:induction false} NoneCreatedOn(cs: seq<CM.Certificate>, d: int, k: nat)
    requires k <= |cs|
    requires forall i :: 0 <= i < k ==> Day(cs[i]) != d
    ensures CreatedOn(cs, d, k) == 0
    ensures forall st :: CreatedOnWith(cs, d, st, k) == 0
  {
    if k > 0 {
      NoneCreatedOn(cs, d, k - 1);
    }
  }

  /** `Certificate.find({..., createdAt: {$gte: thirtyDaysAgo}})`, in stored order. */
  function Since(cs: seq<CM.Certificate>, since: int): (r: seq<CM.Certificate>)
    ensures forall i :: 0 <= i < |r| ==> r[i].createdAt >= since
    ensures forall c :: c in r <==> c in cs && c.createdAt >= since
  {
    Filter(cs, (c: CM.Certificate) => c.createdAt >= since)
  }

  /** The organizer's certificates of the last thirty days, the input of the trends loop. */
  function Recent(es: seq<StoredEvent>, cs: seq<CM.Certificate>, userId: string, now: int): (r: seq<CM.Certificate>)
    ensures forall c :: c in r <==>
      (c in cs && c.createdAt >= now - TrendWindowDays * MsPerDay
       && exists e :: e in es && e.doc.organizer == userId && e.id == c.event)
  {
    Since(CertificatesIn(cs, IdsOf(EventsOf(es, userId))), now - TrendWindowDays * MsPerDay)
  }

  /** The dictionary loop of `GET /stats` over the organizer's certificates of the last thirty days. */
  method DeliveryTrends(es: seq<StoredEvent>, cs: seq<CM.Certificate>, userId: string, now: int)
    returns (trends: map<int, Bucket>)
    ensures trends == Trends(Recent(es, cs, userId, now), |Recent(es, cs, userId, now)|)
  {
    trends := CountByDay(Recent(es, cs, userId, now));
  }

  /** The `forEach` that fills the dictionary, one certificate at a time. */
  method CountByDay(recent: seq<CM.Certificate>) returns (trends: map<int, Bucket>)
    ensures trends == Trends(recent, |recent|)
  {
    trends := map[];
    for k := 0 to |recent|
      invariant trends == Trends(recent, k)
    {
      var c := recent[k];
      var d := Day(c);
      var b := if d in trends then trends[d] else EmptyBucket;
      trends := trends[d := Bump(b, c.status)];
    }
  }
}
