/**
 * The certificate batch builder and its identifiers: the certificate number,
 * the verification URL embedded in the QR code, the background palette of a
 * template, and the result record of one render. Painting the PDF and the QR
 * image is an external capability whose only observable effect here is that it
 * succeeds or fails (`Draw.renders`).
 */
module CertificateGenerator {
  import opened Wrappers
  import opened Text
  import opened EventModel
  import opened CertificateModel

  const DefaultClientUrl: string := "http://localhost:3000"
  /** The upload directory the certificates are written to. */
  const UploadDir: string := "server/uploads/certificates"
  const GenerationFailed: string := "Failed to generate certificate"

  // --------------------------------------------------------------- base 36

  predicate IsBase36Lower(c: char) {
    '0' <= c <= '9' || 'a' <= c <= 'z'
  }

  predicate IsBase36Upper(c: char) {
    '0' <= c <= '9' || 'A' <= c <= 'Z'
  }

  predicate IsUpperNumeral(s: string) {
    forall i :: 0 <= i < |s| ==> IsBase36Upper(s[i])
  }

  function Base36Digit(d: nat): (c: char)
    requires d < 36
    ensures IsBase36Lower(c)
  {
    if d < 10 then ('0' as int + d) as char else ('a' as int + d - 10) as char
  }

  /** `n.toString(36)`: the base-36 numeral of n, lower-case, without leading zeros. */
  function Base36(n: nat): (s: string)
    ensures s != []
    ensures forall i :: 0 <= i < |s| ==> IsBase36Lower(s[i])
    decreases n
  {
    if n < 36 then [Base36Digit(n)] else Base36(n / 36) + [Base36Digit(n % 36)]
  }

  function DigitValue(c: char): nat {
    if '0' <= c <= '9' then c as int - '0' as int
    else if 'A' <= c <= 'Z' then c as int - 'A' as int + 10
    else 0
  }

  /** Reads an upper-case base-36 numeral back as a number. */
  function ParseBase36(s: string): nat {
    if s == [] then 0 else ParseBase36(s[..|s| - 1]) * 36 + DigitValue(s[|s| - 1])
  }

  lemma DigitRoundTrip(d: nat)
    requires d < 36
    ensures IsBase36Upper(UpperChar(Base36Digit(d))) && DigitValue(UpperChar(Base36Digit(d))) == d
  {
  }

  lemma {:induction false} Base36RoundTrip(n: nat)
    ensures ParseBase36(ToUpper(Base36(n))) == n
    ensures forall i :: 0 <= i < |ToUpper(Base36(n))| ==> IsBase36Upper(ToUpper(Base36(n))[i])
    decreases n
  {
    var s := Base36(n);
    if n < 36 {
      DigitRoundTrip(n);
      assert ToUpper(s) == [UpperChar(Base36Digit(n))];
      assert ToUpper(s)[..0] == [];
    } else {
      var hi := Base36(n / 36);
      Base36RoundTrip(n / 36);
      DigitRoundTrip(n % 36);
      ToUpperAppend(hi, [Base36Digit(n % 36)]);
      var u := ToUpper(s);
      assert u == ToUpper(hi) + [UpperChar(Base36Digit(n % 36))];
      assert u[..|u| - 1] == ToUpper(hi);
    }
  }

  // ------------------------------------------------------ certificate number

  /** `s.substr(start, length)`. */
  function Substr(s: string, start: nat, length: nat): (r: string)
    ensures |r| <= length
  {
    if start >= |s| then "" else s[start..if start + length <= |s| then start + length else |s|]
  }

  /** What `Math.random().toString(36)` can produce: "0", or "0." and base-36 digits. */
  predicate IsRandomRepr(r: string) {
    r == "0" || (|r| > 2 && r[..2] == "0." && forall i :: 2 <= i < |r| ==> IsBase36Lower(r[i]))
  }

  predicate IsCertificateNumberChar(c: char) {
    IsBase36Upper(c) || c == '-'
  }

  /**
   * `CERT-<timestamp in base 36>-<5 characters of the random numeral>`, all
   * upper-cased. The time is `Date.now()` and the random numeral
   * `Math.random().toString(36)`, both supplied by the caller.
   */
  function CertificateNumber(timestamp: nat, random: string): (r: string)
    ensures |r| > 6 && r[..5] == "CERT-"
    ensures IsRandomRepr(random) ==> forall i :: 0 <= i < |r| ==> IsCertificateNumberChar(r[i])
  {
    var raw := "CERT-" + Base36(timestamp) + "-" + Substr(random, 2, 5);
    ToUpper(raw)
  }

  function IndexOf(s: string, c: char): (r: Option<nat>)
    ensures r.Some? ==> r.value < |s| && s[r.value] == c && c !in s[..r.value]
    ensures r.None? ==> c !in s
  {
    if s == [] then None
    else if s[0] == c then Some(0)
    else
      var k := IndexOf(s[1..], c);
      if k.Some? then
        assert s[..k.value + 1] == [s[0]] + s[1..][..k.value];
        Some(k.value + 1)
      else None
  }

  /** Splits a certificate number back into its timestamp and random part. */
  function ParseCertificateNumber(s: string): Option<(nat, string)> {
    if |s| < 5 || s[..5] != "CERT-" then None
    else
      var rest := s[5..];
      match IndexOf(rest, '-')
      case None => None
      case Some(k) =>
        if k == 0 || !IsUpperNumeral(rest[..k]) then None
        else Some((ParseBase36(rest[..k]), rest[k + 1..]))
  }

  /** The number determines the timestamp it was made from: numbers of different times never collide. */
  lemma CertificateNumberRoundTrip(timestamp: nat, random: string)
    ensures ParseCertificateNumber(CertificateNumber(timestamp, random))
      == Some((timestamp, ToUpper(Substr(random, 2, 5))))
  {
    var ub := ToUpper(Base36(timestamp));
    UpperCertificateNumber(timestamp, random);
    Base36RoundTrip(timestamp);
    ParseParts(ub, ToUpper(Substr(random, 2, 5)));
  }

  /** A number made of a non-empty upper-case numeral and any tail parses back into the two. */
  lemma ParseParts(ub: string, tail: string)
    requires ub != [] && IsUpperNumeral(ub)
    ensures ParseCertificateNumber("CERT-" + ub + "-" + tail) == Some((ParseBase36(ub), tail))
  {
    var s := "CERT-" + ub + "-" + tail;
    var rest := s[5..];
    assert s[..5] == "CERT-" && rest == ub + ['-'] + tail;
    assert IndexOf(rest, '-') == Some(|ub|) by {
      NoDashInNumeral(ub);
      FirstDash(ub, tail);
    }
    assert rest[..|ub|] == ub && rest[|ub| + 1..] == tail;
  }

  /** Upper-casing the raw number upper-cases each of its parts. */
  lemma UpperCertificateNumber(timestamp: nat, random: string)
    ensures CertificateNumber(timestamp, random)
      == "CERT-" + ToUpper(Base36(timestamp)) + "-" + ToUpper(Substr(random, 2, 5))
  {
    var b := Base36(timestamp);
    var tail := Substr(random, 2, 5);
    ToUpperAppend("CERT-" + b + "-", tail);
    ToUpperAppend("CERT-" + b, "-");
    ToUpperAppend("CERT-", b);
    assert ToUpper("CERT-") == "CERT-";
    assert ToUpper("-") == "-";
  }

  lemma NoDashInNumeral(ub: string)
    requires IsUpperNumeral(ub)
    ensures '-' !in ub
  {
    forall i | 0 <= i < |ub| ensures ub[i] != '-' {
      assert IsBase36Upper(ub[i]);
    }
  }

  /** The first `-` after a dash-free prefix is the one that ends it. */
  lemma FirstDash(a: string, b: string)
    requires '-' !in a
    ensures IndexOf(a + ['-'] + b, '-') == Some(|a|)
  {
    var s := a + ['-'] + b;
    assert s[|a|] == '-';
    assert forall i :: 0 <= i < |a| ==> s[i] == a[i];
    assert forall j :: |a| < j <= |s| ==> s[..j][|a|] == '-';
  }

  lemma DistinctTimestampsDistinctNumbers(t1: nat, r1: string, t2: nat, r2: string)
    requires t1 != t2
    ensures CertificateNumber(t1, r1) != CertificateNumber(t2, r2)
  {
    CertificateNumberRoundTrip(t1, r1);
    CertificateNumberRoundTrip(t2, r2);
  }

  // ------------------------------------------------------ verification URL

  /** `${CLIENT_URL || 'http://localhost:3000'}/verify/${certificateNumber}`; CLIENT_URL is supplied by the caller. */
  function VerificationUrl(clientUrl: Option<string>, certificateNumber: string): (url: string)
    ensures Or(clientUrl, DefaultClientUrl) + "/verify/" <= url
    ensures |url| >= |certificateNumber| && url[|url| - |certificateNumber|..] == certificateNumber
    ensures !Truthy(clientUrl) ==> url == "http://localhost:3000/verify/" + certificateNumber
  {
    Or(clientUrl, DefaultClientUrl) + "/verify/" + certificateNumber
  }

  /** The code a verifier reads back from a URL made against base. */
  function VerificationCode(url: string, base: string): Option<string> {
    var prefix := base + "/verify/";
    if prefix <= url then Some(url[|prefix|..]) else None
  }

  lemma {:induction false} VerificationUrlRoundTrip(clientUrl: Option<string>, certificateNumber: string)
    ensures VerificationCode(VerificationUrl(clientUrl, certificateNumber), Or(clientUrl, DefaultClientUrl))
      == Some(certificateNumber)
  {
    var prefix := Or(clientUrl, DefaultClientUrl) + "/verify/";
    assert VerificationUrl(clientUrl, certificateNumber) == prefix + certificateNumber;
    assert (prefix + certificateNumber)[|prefix|..] == certificateNumber;
  }

  // ------------------------------------------------------------- palette

  /** The background colour of a template name; anything but modern and minimal paints classic. */
  function BackgroundColor(template: string): (color: string)
    ensures color in ["#667eea", "#f8fafc", "#1e3a8a"]
    ensures color == "#667eea" <==> template == "modern"
    ensures color == "#f8fafc" <==> template == "minimal"
    ensures color == "#1e3a8a" <==> template != "modern" && template != "minimal"
  {
    if template == "modern" then "#667eea"
    else if template == "minimal" then "#f8fafc"
    else "#1e3a8a"
  }

  /** The three schema layouts get three different palettes. */
  lemma LayoutPalettesDistinct(a: Layout, b: Layout)
    requires a != b
    ensures BackgroundColor(LayoutName(a)) != BackgroundColor(LayoutName(b))
  {
  }

  // ------------------------------------------------------------- results

  /** The event fields the builder reads; `layout` is `certificateTemplate?.layout`. */
  datatype GeneratorEvent = GeneratorEvent(
    title: string,
    eventDate: int,
    organizerName: string,
    location: string,
    layout: Option<string>)

  datatype GeneratedCertificate = GeneratedCertificate(
    certificateId: string,
    filePath: string,
    fileName: string,
    qrCodeData: string)

  /** What the environment supplies for one participant: clock, random numeral, uuid, render outcome. */
  datatype Draw = Draw(timestamp: nat, random: string, uuid: string, renders: bool)

  datatype GenerationResult = GenerationResult(
    participant: Participant,
    certificate: Option<GeneratedCertificate>,
    success: bool,
    error: Option<string>)

  /** `certificateTemplate?.layout || 'classic'`. */
  function LayoutOf(e: GeneratorEvent): (l: string)
    ensures Truthy(e.layout) ==> l == e.layout.value
    ensures !Truthy(e.layout) ==> l == "classic"
  {
    Or(e.layout, "classic")
  }

  /**
   * One render, seen from its result: the file is stored under a fresh uuid
   * and carries the verification URL as its QR payload. The painting itself
   * is the `renders` outcome; the template only picks its colour, which
   * `BackgroundColor` gives and this result does not record. Any failure is
   * reported as `Failed to generate certificate`.
   */
  function GenerateCertificate(data: CertificateData, template: string, clientUrl: Option<string>,
                               uuid: string, renders: bool): (r: Result<GeneratedCertificate, string>)
    ensures r.Ok? <==> renders
    ensures r.Ok? ==> && r.value.certificateId == uuid
                      && r.value.fileName == "certificate_" + uuid + ".pdf"
                      && r.value.filePath == UploadDir + "/" + r.value.fileName
                      && r.value.qrCodeData == VerificationUrl(clientUrl, data.certificateNumber)
    ensures r.Err? ==> r.error == GenerationFailed
  {
    if !renders then Err(GenerationFailed)
    else
      var fileName := "certificate_" + uuid + ".pdf";
      Ok(GeneratedCertificate(uuid, UploadDir + "/" + fileName, fileName,
                              VerificationUrl(clientUrl, data.certificateNumber)))
  }

  /** The certificate fields the builder hands to the renderer for p. */
  function FieldsFor(p: Participant, e: GeneratorEvent, d: Draw): CertificateData {
    CertificateData(p.name, e.title, e.eventDate, e.organizerName, e.location,
                    CertificateNumber(d.timestamp, d.random))
  }

  /** One iteration of the builder's loop: a render whose failure is caught into the result. */
  function GenerateFor(p: Participant, e: GeneratorEvent, d: Draw, clientUrl: Option<string>): (r: GenerationResult)
    ensures r.participant == p
    ensures r.success <==> d.renders
    ensures r.success ==> && r.certificate.Some? && r.error.None?
                          && r.certificate.value.certificateId == d.uuid
                          && r.certificate.value.fileName == "certificate_" + d.uuid + ".pdf"
                          && r.certificate.value.qrCodeData
                             == VerificationUrl(clientUrl, CertificateNumber(d.timestamp, d.random))
    ensures !r.success ==> r.certificate.None? && r.error == Some(GenerationFailed)
  {
    match GenerateCertificate(FieldsFor(p, e, d), LayoutOf(e), clientUrl, d.uuid, d.renders)
    case Ok(c) => GenerationResult(p, Some(c), true, None)
    case Err(msg) => GenerationResult(p, None, false, Some(msg))
  }

  /** The specification of the batch: one result per participant, in roster order. */
  function GenerateAll(ps: seq<Participant>, e: GeneratorEvent, ds: seq<Draw>, clientUrl: Option<string>): (rs: seq<GenerationResult>)
    requires |ds| == |ps|
  {
    seq(|ps|, i requires 0 <= i < |ps| => GenerateFor(ps[i], e, ds[i], clientUrl))
  }

  /** `generateBulkCertificates`: render each participant in turn; a failure does not stop the loop. */
  method GenerateBulkCertificates(participants: seq<Participant>, eventData: GeneratorEvent,
                                  draws: seq<Draw>, clientUrl: Option<string>)
    returns (results: seq<GenerationResult>)
    requires |draws| == |participants|
    ensures |results| == |participants|
    ensures forall i :: 0 <= i < |participants| ==>
      results[i] == GenerateFor(participants[i], eventData, draws[i], clientUrl)
    ensures results == GenerateAll(participants, eventData, draws, clientUrl)
  {
    results := [];
    for k := 0 to |participants|
      invariant |results| == k
      invariant forall i :: 0 <= i < k ==> results[i] == GenerateFor(participants[i], eventData, draws[i], clientUrl)
    {
      var r := GenerateFor(participants[k], eventData, draws[k], clientUrl);
      results := results + [r];
    }
  }

  /** A failure at one participant changes that participant's result only. */
  lemma FailureIsolation(ps: seq<Participant>, e: GeneratorEvent, ds: seq<Draw>, ds': seq<Draw>,
                         clientUrl: Option<string>, j: nat)
    requires |ds| == |ps| == |ds'| && j < |ps|
    requires forall i :: 0 <= i < |ps| && i != j ==> ds'[i] == ds[i]
    ensures forall i :: 0 <= i < |ps| && i != j ==>
      GenerateAll(ps, e, ds', clientUrl)[i] == GenerateAll(ps, e, ds, clientUrl)[i]
  {
  }

  function CountSucceeded(rs: seq<GenerationResult>): (n: nat)
    ensures n <= |rs|
  {
    Count(rs, (r: GenerationResult) => r.success)
  }

  function CountFailed(rs: seq<GenerationResult>): (n: nat)
    ensures n <= |rs|
  {
    Count(rs, (r: GenerationResult) => !r.success)
  }

  /** Succeeded and failed results together are all the results. */
  lemma {:induction false} SucceededPlusFailed(rs: seq<GenerationResult>)
    ensures CountSucceeded(rs) + CountFailed(rs) == |rs|
  {
    if rs != [] {
      SucceededPlusFailed(rs[1..]);
    }
  }
}
