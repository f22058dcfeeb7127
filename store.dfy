/**
 * The two collections the route handlers read and write, held in memory:
 * events under their ids and certificates in insertion order.  A handler
 * either refuses the request with an HTTP status and a message, or answers
 * and leaves both collections in a new state.
 */
module Store {
  import opened Wrappers
  import opened EventModel
  import CertificateModel

  datatype StoredEvent = StoredEvent(id: string, doc: Event)

  /** A refused request: the HTTP status and the message the handler answers with. */
  datatype Rejection = Rejection(status: nat, message: string)

  /** What a handler answers, with the collections as it leaves them. */
  datatype Outcome<T> = Outcome(
    response: Result<T, Rejection>,
    events: seq<StoredEvent>,
    certificates: seq<CertificateModel.Certificate>)

  const EventNotFound: string := "Event not found"

  class Database {
    var events: seq<StoredEvent>
    var certificates: seq<CertificateModel.Certificate>

    constructor(events: seq<StoredEvent>, certificates: seq<CertificateModel.Certificate>)
      ensures this.events == events && this.certificates == certificates
    {
      this.events := events;
      this.certificates := certificates;
    }
  }

  /** `Event.findById(id)`: the position of the first event stored under id. */
  function FindEvent(es: seq<StoredEvent>, id: string): (r: Option<nat>)
    ensures r.Some? ==> r.value < |es| && es[r.value].id == id
    ensures r.Some? ==> forall j :: 0 <= j < r.value ==> es[j].id != id
    ensures r.None? ==> forall j :: 0 <= j < |es| ==> es[j].id != id
  {
    FirstIndex(es, (e: StoredEvent) => e.id == id)
  }

  /**
   * The guard every per-event handler opens with: 404 when no event has the
   * id, 403 when it belongs to another organizer, otherwise its position.
   */
  function OwnedEvent(es: seq<StoredEvent>, id: string, userId: string, forbidden: string): (r: Result<nat, Rejection>)
    ensures FindEvent(es, id).None? ==> r == Err(Rejection(404, EventNotFound))
    ensures FindEvent(es, id).Some? && es[FindEvent(es, id).value].doc.organizer != userId
            ==> r == Err(Rejection(403, forbidden))
    ensures r.Ok? <==> FindEvent(es, id).Some? && es[FindEvent(es, id).value].doc.organizer == userId
    ensures r.Ok? ==> r == Ok(FindEvent(es, id).value)
  {
    match FindEvent(es, id)
    case None => Err(Rejection(404, EventNotFound))
    case Some(i) => if es[i].doc.organizer != userId then Err(Rejection(403, forbidden)) else Ok(i)
  }

  /** `Certificate.find({event: eventId})`: the event's certificates in insertion order. */
  function EventCertificates(cs: seq<CertificateModel.Certificate>, eventId: string): (r: seq<CertificateModel.Certificate>)
    ensures |r| <= |cs|
    ensures forall i :: 0 <= i < |r| ==> r[i].event == eventId
    ensures forall c :: c in r <==> c in cs && c.event == eventId
  {
    Filter(cs, (c: CertificateModel.Certificate) => c.event == eventId)
  }

  /** An event's certificates are exactly the stored ones that name it. */
  lemma {:induction false} EventCertificatesComplete(cs: seq<CertificateModel.Certificate>, eventId: string)
    ensures |EventCertificates(cs, eventId)| == 0 <==> forall i :: 0 <= i < |cs| ==> cs[i].event != eventId
  {
    if |EventCertificates(cs, eventId)| != 0 {
      assert EventCertificates(cs, eventId)[0] in cs;
    }
  }
}
