/**
 * The chat adapter: a service object holding the chat client, whether that
 * client is ready, and the last pairing code it emitted. The client library is
 * an injected `ChatClient` whose answers are fixed when it is built and which
 * records every call made to it, so "no call is made" is a statement about its
 * call log.
 */
module WhatsAppService {
  import opened Wrappers
  import opened Text
  import opened Batching

  const ChatSuffix: string := "@c.us"
  const NotReadyError: string := "WhatsApp client is not ready"
  const SentMessage: string := "Certificate sent successfully"
  const InfoNotReady: string := "WhatsApp client not ready"
  /** The pause after every message of a bulk send, in milliseconds. */
  const MessagePause: nat := 2000

  // ------------------------------------------------------- phone numbers

  /** Digits only, a leading `1` for a bare ten-digit number, then the chat suffix. */
  function FormatPhoneNumber(phoneNumber: string): string {
    var cleaned := DigitsOnly(phoneNumber);
    (if |cleaned| == 10 then "1" + cleaned else cleaned) + ChatSuffix
  }

  /**
   * A formatted id is a run of digits and the chat suffix; the digits are those
   * of the input, with a `1` added in front of exactly ten of them, so the run
   * is never ten long.
   */
  lemma FormatPhoneNumberShape(phoneNumber: string)
    ensures var r := FormatPhoneNumber(phoneNumber);
            && |r| >= |ChatSuffix| && r[|r| - |ChatSuffix|..] == ChatSuffix
            && AllDigits(r[..|r| - |ChatSuffix|]) && |r| - |ChatSuffix| != 10
  {
    var cleaned := DigitsOnly(phoneNumber);
    var full := if |cleaned| == 10 then "1" + cleaned else cleaned;
    assert AllDigits(full) by {
      if |cleaned| == 10 {
        assert forall i :: 1 <= i < |full| ==> full[i] == cleaned[i - 1];
      }
    }
    assert (full + ChatSuffix)[..|full|] == full;
  }

  /**
   * The digit run of the id is exactly the digits of the input, in order, with
   * a `1` put in front when there are exactly ten of them.
   */
  lemma FormatPhoneNumberDigits(phoneNumber: string)
    ensures var r := FormatPhoneNumber(phoneNumber);
            var digits := DigitsOnly(phoneNumber);
            && |r| >= |ChatSuffix|
            && r[..|r| - |ChatSuffix|] == (if |digits| == 10 then "1" + digits else digits)
  {
    var digits := DigitsOnly(phoneNumber);
    var full := if |digits| == 10 then "1" + digits else digits;
    assert (full + ChatSuffix)[..|full|] == full;
  }

  /** A number with dashes keeps its seven digits: `555-0001` becomes `5550001@c.us`. */
  lemma FormatPhoneNumberExample(phoneNumber: string)
    requires phoneNumber == "555-0001"
    ensures FormatPhoneNumber(phoneNumber) == "5550001@c.us"
  {
    var area: string := "555";
    var dash: string := "-";
    var line: string := "0001";
    assert DigitsOnly(phoneNumber) == area + line by {
      assert phoneNumber == area + dash + line;
      DigitsOnlyAppend(area + dash, line);
      DigitsOnlyAppend(area, dash);
      DigitsOnlyOfDigits(area);
      DigitsOnlyOfDigits(line);
      DigitsOnlyNoDigits(dash);
    }
    assert FormatPhoneNumber(phoneNumber) == area + line + ChatSuffix;
  }

  /** Formatting an already formatted id changes nothing. */
  lemma FormatPhoneNumberIdempotent(phoneNumber: string)
    ensures FormatPhoneNumber(FormatPhoneNumber(phoneNumber)) == FormatPhoneNumber(phoneNumber)
  {
    var r := FormatPhoneNumber(phoneNumber);
    FormatPhoneNumberShape(phoneNumber);
    var full := r[..|r| - |ChatSuffix|];
    assert r == full + ChatSuffix;
    DigitsOnlyAppend(full, ChatSuffix);
    DigitsOnlyOfDigits(full);
    DigitsOnlyNoDigits(ChatSuffix);
    assert DigitsOnly(r) == full;
  }

  // ------------------------------------------------------------- the client

  datatype ClientCall =
    | Initialize
    | Destroy
    | IsRegisteredUser(id: string)
    | SendText(id: string, text: string)
    | SendMedia(id: string, path: string, caption: string)
    | ReadInfo

  datatype ClientInfo = ClientInfo(pushname: string, user: string, platform: string)

  /** The chat client library, with fixed answers and a log of the calls it received. */
  class ChatClient {
    const registered: set<string>
    const refusesText: set<string>
    const refusesMedia: set<string>
    const initializes: bool
    const destroys: bool
    const info: Option<ClientInfo>
    /** The message of every error this client raises. */
    const failure: string
    var calls: seq<ClientCall>

    constructor(registered: set<string>, refusesText: set<string>, refusesMedia: set<string>,
                initializes: bool, destroys: bool, info: Option<ClientInfo>, failure: string)
      ensures this.registered == registered && this.refusesText == refusesText
      ensures this.refusesMedia == refusesMedia && this.initializes == initializes
      ensures this.destroys == destroys && this.info == info && this.failure == failure
      ensures calls == []
    {
      this.registered := registered;
      this.refusesText := refusesText;
      this.refusesMedia := refusesMedia;
      this.initializes := initializes;
      this.destroys := destroys;
      this.info := info;
      this.failure := failure;
      calls := [];
    }

    method Initialize() returns (ok: bool)
      modifies this
      ensures ok == initializes && calls == old(calls) + [ClientCall.Initialize]
    {
      calls := calls + [ClientCall.Initialize];
      ok := initializes;
    }

    method Destroy() returns (ok: bool)
      modifies this
      ensures ok == destroys && calls == old(calls) + [ClientCall.Destroy]
    {
      calls := calls + [ClientCall.Destroy];
      ok := destroys;
    }

    method IsRegistered(id: string) returns (r: bool)
      modifies this
      ensures r == (id in registered) && calls == old(calls) + [IsRegisteredUser(id)]
    {
      calls := calls + [IsRegisteredUser(id)];
      r := id in registered;
    }

    method SendMessage(id: string, text: string) returns (ok: bool)
      modifies this
      ensures ok == (id !in refusesText) && calls == old(calls) + [SendText(id, text)]
    {
      calls := calls + [SendText(id, text)];
      ok := id !in refusesText;
    }

    method SendDocument(id: string, path: string, caption: string) returns (ok: bool)
      modifies this
      ensures ok == (id !in refusesMedia) && calls == old(calls) + [SendMedia(id, path, caption)]
    {
      calls := calls + [SendMedia(id, path, caption)];
      ok := id !in refusesMedia;
    }

    method Info() returns (r: Option<ClientInfo>)
      modifies this
      ensures r == info && calls == old(calls) + [ReadInfo]
    {
      calls := calls + [ReadInfo];
      r := info;
    }
  }

  // ------------------------------------------------------ session machine

  /** The service's observable state: is there a client, is it ready, the last pairing code. */
  datatype Session = Session(hasClient: bool, ready: bool, qrCode: Option<string>)

  /** What can happen to the service: client events, and `start`/`stop` calls. */
  datatype SessionEvent =
    | Qr(code: string)
    | Ready
    | Disconnected
    | Authenticated
    | AuthFailure
    | Started(created: bool)
    | Stopped(destroyed: bool)

  function Step(s: Session, e: SessionEvent): Session {
    match e
    case Qr(code) => s.(qrCode := Some(code))
    case Ready => s.(ready := true)
    case Disconnected => s.(ready := false)
    case Authenticated => s
    case AuthFailure => s
    case Started(created) => s.(hasClient := s.hasClient || created)
    case Stopped(destroyed) => if s.hasClient && destroyed then s.(ready := false) else s
  }

  /** The state after a history of events, applied oldest first. */
  function Replay(s: Session, es: seq<SessionEvent>): Session {
    if es == [] then s else Step(Replay(s, es[..|es| - 1]), es[|es| - 1])
  }

  /** The readiness the newest readiness-changing event of a history sets, if any. */
  function LastReadiness(es: seq<SessionEvent>): Option<bool> {
    if es == [] then None
    else
      match es[|es| - 1]
      case Ready => Some(true)
      case Disconnected => Some(false)
      case Stopped(true) => Some(false)
      case _ => LastReadiness(es[..|es| - 1])
  }

  function LastQr(es: seq<SessionEvent>): Option<string> {
    if es == [] then None
    else if es[|es| - 1].Qr? then Some(es[|es| - 1].code)
    else LastQr(es[..|es| - 1])
  }

  /** A client, once there, stays. */
  lemma {:induction false} ReplayKeepsClient(s: Session, es: seq<SessionEvent>)
    requires s.hasClient
    ensures Replay(s, es).hasClient
  {
    if es != [] {
      ReplayKeepsClient(s, es[..|es| - 1]);
    }
  }

  /** With a client, readiness is what the newest `ready`, `disconnected` or successful `stop` set. */
  lemma {:induction false} ReplayReadiness(s: Session, es: seq<SessionEvent>)
    requires s.hasClient
    ensures Replay(s, es).ready == LastReadiness(es).GetOr(s.ready)
  {
    if es != [] {
      ReplayReadiness(s, es[..|es| - 1]);
      ReplayKeepsClient(s, es[..|es| - 1]);
    }
  }

  /** The stored pairing code is the newest one the client emitted. */
  lemma {:induction false} ReplayQrCode(s: Session, es: seq<SessionEvent>)
    ensures Replay(s, es).qrCode == if LastQr(es).Some? then LastQr(es) else s.qrCode
  {
    if es != [] {
      ReplayQrCode(s, es[..|es| - 1]);
    }
  }

  // ------------------------------------------------------------- results

  datatype SendResult = SendResult(success: bool, message: Option<string>, error: Option<string>)

  /** One entry of the bulk input. */
  datatype ChatDelivery = ChatDelivery(phoneNumber: string, certificatePath: string,
                                       participantName: string, eventTitle: string)

  datatype BulkEntry = BulkEntry(participantName: string, phoneNumber: string,
                                 success: bool, message: Option<string>)

  datatype InfoResult =
    | NotReadyInfo(message: string)
    | ReadyInfo(name: string, phone: string, platform: string)
    | InfoError(error: string)

  /** The pieces of the certificate message around the participant's name and the event title. */
  const TextHead: string := "\U{1F393} *Certificate of Participation*\n\nDear "
  const TextMiddle: string := ",\n\nCongratulations! You have successfully completed \""
  const TextTail: string :=
    "\".\n\nPlease find your certificate attached.\n\nBest regards,\nEventEye Team\n\n---\n"
    + "*This is an automated message from EventEye Certificate Automation System*"

  function CertificateText(participantName: string, eventTitle: string): string {
    TextHead + participantName + TextMiddle + eventTitle + TextTail
  }

  function Caption(eventTitle: string): string {
    "Your certificate for " + eventTitle
  }

  function UnregisteredError(formatted: string): string {
    "Phone number " + formatted + " is not registered on WhatsApp"
  }

  /** Whether sending d through c succeeds, given the service's readiness. */
  predicate Delivers(c: ChatClient?, ready: bool, d: ChatDelivery) {
    var id := FormatPhoneNumber(d.phoneNumber);
    ready && c != null && id in c.registered && id !in c.refusesText && id !in c.refusesMedia
  }

  /**
   * The result of one send: not ready fails first, then an unregistered
   * number, then a refused text or document with the client's error.
   */
  function SendOutcome(c: ChatClient?, ready: bool, d: ChatDelivery): (r: SendResult)
    ensures r.success <==> Delivers(c, ready, d)
    ensures r.success ==> r.message == Some(SentMessage) && r.error.None?
    ensures !r.success ==> r.message.None? && r.error.Some?
    ensures !ready ==> r.error == Some(NotReadyError)
    ensures ready && c != null && FormatPhoneNumber(d.phoneNumber) !in c.registered
            ==> r.error == Some(UnregisteredError(FormatPhoneNumber(d.phoneNumber)))
    ensures var id := FormatPhoneNumber(d.phoneNumber);
            ready && c != null && id in c.registered && (id in c.refusesText || id in c.refusesMedia)
            ==> r.error == Some(c.failure)
  {
    var id := FormatPhoneNumber(d.phoneNumber);
    if !ready || c == null then SendResult(false, None, Some(NotReadyError))
    else if id !in c.registered then SendResult(false, None, Some(UnregisteredError(id)))
    else if id in c.refusesText || id in c.refusesMedia then SendResult(false, None, Some(c.failure))
    else SendResult(true, Some(SentMessage), None)
  }

  /** The client calls one send makes: none when not ready, then the lookup, the text, the media. */
  function SendCalls(c: ChatClient?, ready: bool, d: ChatDelivery): (calls: seq<ClientCall>)
    ensures !ready ==> calls == []
    ensures (exists k :: 0 <= k < |calls| && calls[k].SendText?) ==> ready && c != null && FormatPhoneNumber(d.phoneNumber) in c.registered
    ensures |calls| == 3 ==> calls[1].SendText? && calls[2].SendMedia? && calls[1].id == calls[2].id
    ensures var id := FormatPhoneNumber(d.phoneNumber);
            ready && c != null && id !in c.registered ==> calls == [IsRegisteredUser(id)]
    ensures var id := FormatPhoneNumber(d.phoneNumber);
            ready && c != null && id in c.registered && id in c.refusesText
            ==> calls == [IsRegisteredUser(id), SendText(id, CertificateText(d.participantName, d.eventTitle))]
    ensures var id := FormatPhoneNumber(d.phoneNumber);
            ready && c != null && id in c.registered && id !in c.refusesText
            ==> calls == [IsRegisteredUser(id), SendText(id, CertificateText(d.participantName, d.eventTitle)),
                          SendMedia(id, d.certificatePath, Caption(d.eventTitle))]
    ensures Delivers(c, ready, d) ==> |calls| == 3
  {
    var id := FormatPhoneNumber(d.phoneNumber);
    if !ready || c == null then []
    else if id !in c.registered then [IsRegisteredUser(id)]
    else if id in c.refusesText then [IsRegisteredUser(id), SendText(id, CertificateText(d.participantName, d.eventTitle))]
    else [IsRegisteredUser(id), SendText(id, CertificateText(d.participantName, d.eventTitle)),
          SendMedia(id, d.certificatePath, Caption(d.eventTitle))]
  }

  function BulkCalls(c: ChatClient?, ready: bool, ds: seq<ChatDelivery>): seq<ClientCall> {
    if ds == [] then [] else BulkCalls(c, ready, ds[..|ds| - 1]) + SendCalls(c, ready, ds[|ds| - 1])
  }

  lemma BulkCallsStep(c: ChatClient?, ready: bool, ds: seq<ChatDelivery>, k: nat)
    requires k < |ds|
    ensures BulkCalls(c, ready, ds[..k + 1]) == BulkCalls(c, ready, ds[..k]) + SendCalls(c, ready, ds[k])
  {
    assert ds[..k + 1][..k] == ds[..k];
  }

  /** `result.message || result.error`. */
  function MessageOrError(r: SendResult): Option<string> {
    if Truthy(r.message) then r.message else r.error
  }

  function EntryFor(c: ChatClient?, ready: bool, d: ChatDelivery): BulkEntry {
    var r := SendOutcome(c, ready, d);
    BulkEntry(d.participantName, d.phoneNumber, r.success, MessageOrError(r))
  }

  /** The bulk results: one entry per delivery, in input order. */
  function Entries(c: ChatClient?, ready: bool, ds: seq<ChatDelivery>): (es: seq<BulkEntry>)
    ensures |es| == |ds|
  {
    if ds == [] then [] else Entries(c, ready, ds[..|ds| - 1]) + [EntryFor(c, ready, ds[|ds| - 1])]
  }

  lemma EntriesStep(c: ChatClient?, ready: bool, ds: seq<ChatDelivery>, k: nat)
    requires k < |ds|
    ensures Entries(c, ready, ds[..k + 1]) == Entries(c, ready, ds[..k]) + [EntryFor(c, ready, ds[k])]
  {
    assert ds[..k + 1][..k] == ds[..k];
  }

  /**
   * Entry i belongs to delivery i: same name and number, and it succeeds
   * exactly when that delivery goes through.
   */
  lemma {:induction false} EntriesAligned(c: ChatClient?, ready: bool, ds: seq<ChatDelivery>, i: nat)
    requires i < |ds|
    ensures Entries(c, ready, ds)[i] == EntryFor(c, ready, ds[i])
    ensures Entries(c, ready, ds)[i].participantName == ds[i].participantName
    ensures Entries(c, ready, ds)[i].phoneNumber == ds[i].phoneNumber
    ensures Entries(c, ready, ds)[i].success <==> Delivers(c, ready, ds[i])
  {
    if i < |ds| - 1 {
      EntriesAligned(c, ready, ds[..|ds| - 1], i);
    }
  }

  /** A send, then a pause, for each of n messages. */
  function PacedSends(n: nat, ms: nat): (t: seq<Activity>)
    ensures |t| == 2 * n
  {
    if n == 0 then [] else PacedSends(n - 1, ms) + [Send(n - 1), Pause(ms)]
  }

  /** The paced trace sends every message once, in order, and pauses after each one, the last included. */
  lemma {:induction false} PacedSendsFacts(n: nat, ms: nat)
    ensures SentIndices(PacedSends(n, ms)) == Range(0, n)
    ensures CountPauses(PacedSends(n, ms)) == n
    ensures n > 0 ==> PacedSends(n, ms)[2 * n - 1] == Pause(ms)
  {
    if n > 0 {
      PacedSendsFacts(n - 1, ms);
      var t := PacedSends(n - 1, ms);
      SentIndicesAppend(t, [Send(n - 1), Pause(ms)]);
      CountPausesAppend(t, [Send(n - 1), Pause(ms)]);
      var step := [Send(n - 1), Pause(ms)];
      assert step[1..] == [Pause(ms)] && [Pause(ms)][1..] == [];
      assert SentIndices([Pause(ms)]) == [] && CountPauses([Pause(ms)]) == 1;
      assert SentIndices(step) == [n - 1] + SentIndices([Pause(ms)]);
      assert CountPauses(step) == 0 + CountPauses([Pause(ms)]);
      RangeAppend(0, n - 1, n);
    }
  }

  // -------------------------------------------------------------- service

  class WhatsAppServiceState {
    var client: ChatClient?
    var isReady: bool
    var qrCode: Option<string>

    /** A ready service has a client: readiness is only ever set by the client's own event. */
    predicate Valid()
      reads this
    {
      isReady ==> client != null
    }

    function View(): Session
      reads this
    {
      Session(client != null, isReady, qrCode)
    }

    /** `created` is the client the library built, or null when building it failed. */
    constructor(created: ChatClient?)
      ensures Valid()
      ensures client == created && !isReady && qrCode == None
    {
      client := created;
      isReady := false;
      qrCode := None;
    }

    method OnQr(code: string)
      requires Valid() && client != null
      modifies this
      ensures Valid() && client == old(client)
      ensures View() == Step(old(View()), Qr(code))
    {
      qrCode := Some(code);
    }

    method OnReady()
      requires Valid() && client != null
      modifies this
      ensures Valid() && client == old(client)
      ensures View() == Step(old(View()), Ready)
    {
      isReady := true;
    }

    method OnDisconnected()
      requires Valid() && client != null
      modifies this
      ensures Valid() && client == old(client)
      ensures View() == Step(old(View()), Disconnected)
    {
      isReady := false;
    }

    /** Builds a client when there is none (`created`), then initializes it. */
    method Start(created: ChatClient?) returns (ok: bool)
      requires Valid()
      modifies this, if client == null then created else client
      ensures Valid()
      ensures client == if old(client) == null then created else old(client)
      ensures View() == Step(old(View()), Started(created != null))
      ensures ok <==> client != null && client.initializes
      ensures old(client) != null ==> client.calls == old(client.calls) + [ClientCall.Initialize]
      ensures old(client) == null && created != null ==> created.calls == old(created.calls) + [ClientCall.Initialize]
    {
      if client == null {
        client := created;
      }
      if client == null {
        ok := false;
      } else {
        ok := client.Initialize();
      }
    }

    /** Destroys the client if there is one; readiness is cleared only when that succeeds. */
    method Stop()
      requires Valid()
      modifies this, client
      ensures Valid() && client == old(client)
      ensures View() == Step(old(View()), Stopped(client != null && client.destroys))
      ensures client != null ==> client.calls == old(client.calls) + [ClientCall.Destroy]
    {
      if client != null {
        var ok := client.Destroy();
        if ok {
          isReady := false;
        }
      }
    }

    function GetQRCode(): (r: Option<string>)
      reads this
      ensures r == View().qrCode
    {
      qrCode
    }

    function IsClientReady(): (r: bool)
      reads this
      ensures r == View().ready
    {
      isReady
    }

    method SendCertificate(phoneNumber: string, certificatePath: string,
                           participantName: string, eventTitle: string) returns (r: SendResult)
      requires Valid()
      modifies client
      ensures r == SendOutcome(client, isReady, ChatDelivery(phoneNumber, certificatePath, participantName, eventTitle))
      ensures client != null ==>
        client.calls == old(client.calls) + SendCalls(client, isReady, ChatDelivery(phoneNumber, certificatePath, participantName, eventTitle))
    {
      if !isReady {
        return SendResult(false, None, Some(NotReadyError));
      }
      var id := FormatPhoneNumber(phoneNumber);
      var registered := client.IsRegistered(id);
      if !registered {
        return SendResult(false, None, Some(UnregisteredError(id)));
      }
      var ok := client.SendMessage(id, CertificateText(participantName, eventTitle));
      if !ok {
        return SendResult(false, None, Some(client.failure));
      }
      ok := client.SendDocument(id, certificatePath, Caption(eventTitle));
      if !ok {
        return SendResult(false, None, Some(client.failure));
      }
      r := SendResult(true, Some(SentMessage), None);
    }

    /** One entry of the bulk loop: the send, and the entry recorded for it. */
    method SendEntry(d: ChatDelivery) returns (entry: BulkEntry)
      requires Valid()
      modifies client
      ensures entry == EntryFor(client, isReady, d)
      ensures client != null ==> client.calls == old(client.calls) + SendCalls(client, isReady, d)
    {
      var r := SendCertificate(d.phoneNumber, d.certificatePath, d.participantName, d.eventTitle);
      assert d == ChatDelivery(d.phoneNumber, d.certificatePath, d.participantName, d.eventTitle);
      entry := BulkEntry(d.participantName, d.phoneNumber, r.success, MessageOrError(r));
    }

    /** Sends to each entry in turn and pauses after every message, the last one included. */
    method SendBulkCertificates(certificates: seq<ChatDelivery>) returns (results: seq<BulkEntry>, trace: seq<Activity>)
      requires Valid()
      modifies client
      ensures |results| == |certificates|
      ensures results == Entries(client, isReady, certificates)
      ensures client != null ==> client.calls == old(client.calls) + BulkCalls(client, isReady, certificates)
      ensures trace == PacedSends(|certificates|, MessagePause)
    {
      results := [];
      trace := [];
      for k := 0 to |certificates|
        invariant results == Entries(client, isReady, certificates[..k])
        invariant client != null ==> client.calls == old(client.calls) + BulkCalls(client, isReady, certificates[..k])
        invariant trace == PacedSends(k, MessagePause)
      {
        ghost var before := if client == null then [] else client.calls;
        var entry := SendEntry(certificates[k]);
        BulkCallsStep(client, isReady, certificates, k);
        EntriesStep(client, isReady, certificates, k);
        if client != null {
          ConcatAssoc(old(client.calls), BulkCalls(client, isReady, certificates[..k]), SendCalls(client, isReady, certificates[k]));
        }
        results := results + [entry];
        trace := trace + [Send(k), Pause(MessagePause)];
      }
      assert certificates[..|certificates|] == certificates;
    }

    method GetClientInfo() returns (r: InfoResult)
      requires Valid()
      modifies client
      ensures r.ReadyInfo? <==> isReady && client.info.Some?
      ensures !isReady ==> r == NotReadyInfo(InfoNotReady)
      ensures isReady && client.info.Some? ==>
        r == ReadyInfo(client.info.value.pushname, client.info.value.user, client.info.value.platform)
      ensures isReady && client.info.None? ==> r == InfoError(client.failure)
      ensures client != null ==> client.calls == old(client.calls) + (if isReady then [ReadInfo] else [])
    {
      if !isReady {
        return NotReadyInfo(InfoNotReady);
      }
      var info := client.Info();
      if info.None? {
        return InfoError(client.failure);
      }
      r := ReadyInfo(info.value.pushname, info.value.user, info.value.platform);
    }
  }
}
