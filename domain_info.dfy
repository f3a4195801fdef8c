/** The server route that gathers everything known about one domain: WHOIS
    (with a fallback WHOIS API), DNS records, the TLS certificate and the
    geolocation of the first IPv4 address, assembled into one record.
    Every network service is an input: a `Network` value maps each query to
    the answer the service gives, so the model is total and deterministic. */
module DomainInfo {
  import opened Wrappers
  import opened Text
  import JsValues

  // ---------------------------------------------------------------------
  // safeExecute: the shared error list
  // ---------------------------------------------------------------------

  /** How an awaited promise settles. */
  datatype Settled<T> = Resolved(value: T) | Rejected

  /** The `errors` array that every guarded lookup of one request appends to. */
  class ErrorLog {
    var errors: seq<string>

    constructor ()
      ensures errors == []
    {
      errors := [];
    }

    /** `safeExecute`: on success the value, with `errors` unchanged; on
        failure `undefined`, with `errorMsg` appended exactly once. */
    method SafeExecute<T>(outcome: Settled<T>, errorMsg: string) returns (r: Option<T>)
      modifies this
      ensures outcome.Resolved? ==> r == Some(outcome.value) && errors == old(errors)
      ensures outcome.Rejected? ==> r == None && errors == old(errors) + [errorMsg]
    {
      match outcome
      case Resolved(v) =>
        r := Some(v);
      case Rejected =>
        errors := errors + [errorMsg];
        r := None;
    }
  }

  // ---------------------------------------------------------------------
  // getParentDomain
  // ---------------------------------------------------------------------

  /** The name the WHOIS services are asked about: the last two labels when
      there are more than two and the second-to-last is longer than three
      characters, otherwise the name unchanged. */
  function ParentDomain(domain: string): string
  {
    var parts := Split(domain, '.');
    if |parts| > 2 && |parts[|parts| - 2]| > 3 then Join(parts[|parts| - 2..], '.')
    else domain
  }

  /** The parent is taken (and differs from the input) exactly when the
      input has more than two labels and its second-to-last is longer than
      three characters; the parent is then those two labels. */
  lemma ParentDomainCases(domain: string)
    ensures var parts := Split(domain, '.');
      (ParentDomain(domain) != domain <==> |parts| > 2 && |parts[|parts| - 2]| > 3)
      && (ParentDomain(domain) != domain ==>
            ParentDomain(domain) == parts[|parts| - 2] + "." + parts[|parts| - 1])
  {
    var parts := Split(domain, '.');
    if |parts| > 2 && |parts[|parts| - 2]| > 3 {
      var last2 := parts[|parts| - 2..];
      assert Join(last2, '.') == parts[|parts| - 2] + "." + parts[|parts| - 1] by {
        assert last2[1..] == [parts[|parts| - 1]];
      }
      SplitJoin(last2, '.');
      JoinSplit(domain, '.');
      assert Split(ParentDomain(domain), '.') == last2;
    }
  }

  /** Asking for the parent of a parent changes nothing. */
  lemma ParentDomainIdempotent(domain: string)
    ensures ParentDomain(ParentDomain(domain)) == ParentDomain(domain)
  {
    var parts := Split(domain, '.');
    if |parts| > 2 && |parts[|parts| - 2]| > 3 {
      var last2 := parts[|parts| - 2..];
      SplitJoin(last2, '.');
    }
  }

  lemma ParentDomainOfSubdomain()
    ensures ParentDomain("sub.example.com") == "example.com"
  {
    var parts := ["sub", "example", "com"];
    assert parts[1..] == ["example", "com"];
    assert parts[1..][1..] == ["com"];
    assert Join(parts, '.') == "sub.example.com";
    SplitJoin(parts, '.');
    assert parts[1..] == parts[|parts| - 2..];
    assert Join(parts[1..], '.') == "example.com";
  }

  /** `co` is too short to be taken for a registrable label, so the name is
      passed to WHOIS unchanged (not as `co.uk`). */
  lemma ParentDomainOfCountryCodeSuffix()
    ensures ParentDomain("www.example.co.uk") == "www.example.co.uk"
  {
    var parts := ["www", "example", "co", "uk"];
    assert parts[1..] == ["example", "co", "uk"];
    assert parts[1..][1..] == ["co", "uk"];
    assert parts[1..][1..][1..] == ["uk"];
    assert Join(parts, '.') == "www.example.co.uk";
    SplitJoin(parts, '.');
  }

  // ---------------------------------------------------------------------
  // DNS helpers
  // ---------------------------------------------------------------------

  /** What a DNS resolver call reports: the answer, or an error. */
  datatype DnsAnswer<T> = Answer(records: T) | ResolveError

  /** An MX answer entry. */
  datatype MxRecord = MxRecord(exchange: string, priority: nat)

  /** `getIpAddress`/`getIpv6Address`/`getNameServers`: a resolver error
      becomes the empty list, so the promise never rejects. */
  function AddressList(answer: DnsAnswer<seq<string>>): (r: Settled<seq<string>>)
    ensures r.Resolved?
    ensures answer.ResolveError? ==> r.value == []
    ensures answer.Answer? ==> r.value == answer.records
  {
    match answer
    case Answer(a) => Resolved(a)
    case ResolveError => Resolved([])
  }

  const PriorityTag: string := " (priority: "

  /** One MX entry as the route renders it. */
  function FormatMx(r: MxRecord): string
  {
    r.exchange + PriorityTag + NatToString(r.priority) + ")"
  }

  /** Reads an MX entry back from its rendering, from the right: the closing
      parenthesis, the trailing digits, then the priority tag. */
  function ParseMx(s: string): Option<MxRecord>
  {
    if |s| == 0 || s[|s| - 1] != ')' then None
    else
      var body := s[..|s| - 1];
      var k := |body| - TrailingDigits(body);
      TrailingDigitRun(body);
      if k == |body| || k < |PriorityTag| || body[k - |PriorityTag|..k] != PriorityTag then None
      else Some(MxRecord(body[..k - |PriorityTag|], DecimalValue(body[k..])))
  }

  /** The rendering of an MX entry loses nothing: exchange and priority can
      be read back, whatever characters the exchange holds. */
  lemma MxRoundTrip(r: MxRecord)
    ensures ParseMx(FormatMx(r)) == Some(r)
  {
    var s := FormatMx(r);
    var x := r.exchange + PriorityTag;
    var ds := NatToString(r.priority);
    assert s == x + ds + ")";
    var body := s[..|s| - 1];
    assert body == x + ds;
    TrailingDigitsAfterNonDigit(x, ds);
    var k := |body| - TrailingDigits(body);
    assert k == |x|;
    assert body[k - |PriorityTag|..k] == PriorityTag;
    assert body[..k - |PriorityTag|] == r.exchange;
    assert body[k..] == ds;
    DecimalValueOfNatToString(r.priority);
  }

  /** `getMxRecords`: every entry rendered, count and order kept; a resolver
      error gives the empty list. */
  function MxList(answer: DnsAnswer<seq<MxRecord>>): (r: Settled<seq<string>>)
    ensures r.Resolved?
    ensures answer.ResolveError? ==> r.value == []
    ensures answer.Answer? ==>
      (|r.value| == |answer.records|
       && forall i :: 0 <= i < |r.value| ==>
            r.value[i] == FormatMx(answer.records[i]) && ParseMx(r.value[i]) == Some(answer.records[i]))
  {
    match answer
    case ResolveError => Resolved([])
    case Answer(recs) =>
      var out := seq(|recs|, i requires 0 <= i < |recs| => FormatMx(recs[i]));
      assert forall i :: 0 <= i < |out| ==> ParseMx(out[i]) == Some(recs[i]) by {
        forall i | 0 <= i < |out| ensures ParseMx(out[i]) == Some(recs[i]) {
          MxRoundTrip(recs[i]);
        }
      }
      Resolved(out)
  }

  lemma MxExample()
    ensures MxList(Answer([MxRecord("mail.example.com", 10)])).value == ["mail.example.com (priority: 10)"]
  {
    assert NatToString(1) == "1";
    assert NatToString(0) == "0";
    assert NatToString(10) == "10";
    assert FormatMx(MxRecord("mail.example.com", 10)) == "mail.example.com (priority: 10)";
  }

  /** The chunk arrays of a TXT answer, concatenated in order. */
  function Flatten(chunks: seq<seq<string>>): seq<string>
  {
    if chunks == [] then [] else chunks[0] + Flatten(chunks[1..])
  }

  function TotalLength(chunks: seq<seq<string>>): nat
  {
    if chunks == [] then 0 else |chunks[0]| + TotalLength(chunks[1..])
  }

  lemma {:induction false} FlattenAppend(a: seq<seq<string>>, b: seq<seq<string>>)
    ensures Flatten(a + b) == Flatten(a) + Flatten(b)
    ensures TotalLength(a + b) == TotalLength(a) + TotalLength(b)
  {
    if a != [] {
      assert (a + b)[1..] == a[1..] + b;
      FlattenAppend(a[1..], b);
    } else {
      assert a + b == b;
    }
  }

  /** The flattened list is as long as all chunks together, and chunk `i`'s
      entry `j` sits right after the entries of the chunks before it. */
  lemma {:induction false} FlattenLayout(chunks: seq<seq<string>>, i: nat, j: nat)
    requires i < |chunks| && j < |chunks[i]|
    ensures |Flatten(chunks)| == TotalLength(chunks)
    ensures TotalLength(chunks[..i]) + j < |Flatten(chunks)|
    ensures Flatten(chunks)[TotalLength(chunks[..i]) + j] == chunks[i][j]
  {
    FlattenLength(chunks);
    FlattenLength(chunks[..i]);
    var rest := [chunks[i]] + chunks[i + 1..];
    assert chunks == chunks[..i] + rest;
    FlattenAppend(chunks[..i], rest);
    assert rest[1..] == chunks[i + 1..];
    assert Flatten(rest) == chunks[i] + Flatten(chunks[i + 1..]);
    assert Flatten(chunks) == Flatten(chunks[..i]) + (chunks[i] + Flatten(chunks[i + 1..]));
  }

  lemma {:induction false} FlattenLength(chunks: seq<seq<string>>)
    ensures |Flatten(chunks)| == TotalLength(chunks)
  {
    if chunks != [] {
      FlattenLength(chunks[1..]);
    }
  }

  /** `getTxtRecords`: the flattened chunks; a resolver error gives the empty list. */
  function TxtList(answer: DnsAnswer<seq<seq<string>>>): (r: Settled<seq<string>>)
    ensures r.Resolved?
    ensures answer.ResolveError? ==> r.value == []
    ensures answer.Answer? ==> r.value == Flatten(answer.records) && |r.value| == TotalLength(answer.records)
  {
    match answer
    case ResolveError => Resolved([])
    case Answer(chunks) =>
      FlattenLength(chunks);
      Resolved(Flatten(chunks))
  }

  lemma TxtExample()
    ensures TxtList(Answer([["v=spf1", "include:_spf.example.com"]])).value
         == ["v=spf1", "include:_spf.example.com"]
  {
    var c := [["v=spf1", "include:_spf.example.com"]];
    assert c[1..] == [];
  }

  // ---------------------------------------------------------------------
  // makeStatusArray
  // ---------------------------------------------------------------------

  const Prohibited: string := "Prohibited"

  /** A status code as the pattern `[a-zA-Z]+Prohibited` matches it. */
  predicate IsStatusCode(t: string)
  {
    |t| > |Prohibited| && AllLetters(t) && t[|t| - |Prohibited|..] == Prohibited
  }

  /** The length of the run of ASCII letters at the start of `s`. */
  function LetterRun(s: string): (n: nat)
    ensures n <= |s| && AllLetters(s[..n])
    ensures n < |s| ==> !IsLetter(s[n])
  {
    if |s| > 0 && IsLetter(s[0]) then
      var n := 1 + LetterRun(s[1..]);
      assert s[..n] == [s[0]] + s[1..][..n - 1];
      n
    else 0
  }

  /** The match the greedy pattern finds in a maximal run of letters: the
      longest prefix that ends in "Prohibited" with at least one letter
      before it, searching end positions from the right. A run yields at
      most one match, since the greedy letter class already consumed every
      later occurrence. */
  function RunMatch(run: string, j: int): (r: Option<string>)
    requires AllLetters(run)
    requires j + |Prohibited| <= |run|
    ensures r.Some? ==> IsStatusCode(r.value)
    decreases j
  {
    if j < 1 then None
    else if run[j..j + |Prohibited|] == Prohibited then
      var t := run[..j + |Prohibited|];
      assert t[|t| - |Prohibited|..] == run[j..j + |Prohibited|];
      Some(t)
    else RunMatch(run, j - 1)
  }

  /** All matches of `/([a-zA-Z]+Prohibited)/g`, left to right, one per maximal letter run. */
  function StatusMatches(s: string): (r: seq<string>)
    ensures forall i :: 0 <= i < |r| ==> IsStatusCode(r[i])
    decreases |s|
  {
    if s == [] then []
    else if !IsLetter(s[0]) then StatusMatches(s[1..])
    else
      var n := LetterRun(s);
      var run := s[..n];
      var m := if n >= |Prohibited| then RunMatch(run, n - |Prohibited|) else None;
      (if m.Some? then [m.value] else []) + StatusMatches(s[n..])
  }

  /** The entries of `s` in first-occurrence order, repeats dropped
      (`Array.from(new Set(...))`). */
  function Dedup(s: seq<string>): (r: seq<string>)
    ensures forall x :: x in r <==> x in s
    ensures forall i, j :: 0 <= i < j < |r| ==> r[i] != r[j]
  {
    if s == [] then []
    else
      var prefix := Dedup(s[..|s| - 1]);
      var x := s[|s| - 1];
      assert forall y :: y in s <==> y in s[..|s| - 1] || y == x by {
        assert s == s[..|s| - 1] + [x];
      }
      if x in s[..|s| - 1] then prefix else prefix + [x]
  }

  /** The index of the first occurrence of `x` in `s`. */
  function FirstIndex(s: seq<string>, x: string): (k: nat)
    requires x in s
    ensures k < |s| && s[k] == x && x !in s[..k]
  {
    if s[0] == x then 0 else 1 + FirstIndex(s[1..], x)
  }

  lemma {:induction false} FirstIndexInPrefix(s: seq<string>, n: nat, x: string)
    requires n <= |s| && x in s[..n]
    ensures FirstIndex(s, x) == FirstIndex(s[..n], x)
  {
    if s[0] != x {
      assert s[1..][..n - 1] == s[..n][1..];
      FirstIndexInPrefix(s[1..], n - 1, x);
    }
  }

  /** The kept entries appear in the order of their first occurrence. */
  lemma {:induction false} DedupKeepsFirstOccurrenceOrder(s: seq<string>)
    ensures forall i, j :: 0 <= i < j < |Dedup(s)| ==> FirstIndex(s, Dedup(s)[i]) < FirstIndex(s, Dedup(s)[j])
  {
    if s != [] {
      var p := s[..|s| - 1];
      var x := s[|s| - 1];
      var d := Dedup(s);
      var dp := Dedup(p);
      DedupKeepsFirstOccurrenceOrder(p);
      forall y | y in dp ensures FirstIndex(s, y) == FirstIndex(p, y) {
        FirstIndexInPrefix(s, |s| - 1, y);
      }
      if x !in p {
        assert FirstIndex(s, x) == |s| - 1 by {
          assert forall m :: 0 <= m < |s| - 1 ==> s[m] == p[m];
          assert forall m :: 0 <= m < |s| - 1 ==> s[m] != x;
        }
      }
    }
  }

  /** `makeStatusArray`: no status gives the empty list; otherwise the
      distinct codes in order of first appearance. */
  function StatusArray(status: string): (r: seq<string>)
    ensures status == "" ==> r == []
    ensures status != "" ==> r == Dedup(StatusMatches(status))
    ensures forall i :: 0 <= i < |r| ==> IsStatusCode(r[i])
    ensures forall i, j :: 0 <= i < j < |r| ==> r[i] != r[j]
    ensures forall x :: x in r <==> x in StatusMatches(status)
  {
    if status == "" then []
    else
      var m := StatusMatches(status);
      var r := Dedup(m);
      assert forall i :: 0 <= i < |r| ==> IsStatusCode(r[i]) by {
        forall i | 0 <= i < |r| ensures IsStatusCode(r[i]) {
          assert r[i] in m;
        }
      }
      r
  }

  // ---------------------------------------------------------------------
  // WHOIS data, primary and fallback
  // ---------------------------------------------------------------------

  /** The `registrar` entry of a WHOIS object: absent, a string, or (from the
      fallback source) an object with a name. */
  datatype RegistrarValue = NoRegistrar | RegistrarText(text: string)
                          | RegistrarRecord(name: string, id: string, url: Option<string>)

  datatype DateBlock = DateBlock(expiry: string, updated: string, creation: string)

  datatype Registrant = Registrant(name: string, organization: string, street: string,
                                   city: string, country: string, postalCode: string)

  /** The WHOIS object the route reads. Every string field uses "" for a
      field that is absent or empty (both are falsy to the `||` chains). */
  datatype WhoisRecord = WhoisRecord(
    domainName: string,
    registrarName: string,
    registrar: RegistrarValue,
    expiryDate: string,
    registrarRegistrationExpirationDate: string,
    lastUpdated: string,
    updatedDate: string,
    creationDate: string,
    dates: Option<DateBlock>,
    registrarIanaId: string,
    registrarUrl: string,
    registryDomainId: string,
    registrantName: string,
    registrantOrganization: string,
    registrantStreet: string,
    registrantCity: string,
    registrantCountry: string,
    registrantStateProvince: string,
    registrantPostalCode: string,
    abuseContactEmail: string,
    registrarAbuseContactEmail: string,
    abuseContactPhone: string,
    registrarAbuseContactPhone: string,
    dnssec: string,
    domainStatus: string,
    whois: Option<Registrant>)

  /** What the WHOIS library gives: an error, an empty (or non-object) answer, or data. */
  datatype WhoisAnswer = WhoisFailed | WhoisEmpty | WhoisData(record: WhoisRecord)

  datatype XmlRegistrant = XmlRegistrant(name: string, organization: string, street1: string,
                                         state: string, countryCode: string, postalCode: string)

  datatype RegistryData = RegistryData(
    registrarName: string, whoisServer: string,
    createdDateNormalized: string, expiresDateNormalized: string, updatedDateNormalized: string,
    registrant: Option<XmlRegistrant>)

  datatype XmlWhoisRecord = XmlWhoisRecord(domainName: string, registrarName: string,
                                           registrarIANAID: string, registryData: Option<RegistryData>)

  /** What the fallback WHOIS API gives: a failed fetch, a non-OK status, or a
      JSON body with or without a `WhoisRecord`. */
  datatype BackupAnswer = BackupFetchFailed | BackupHttpError | BackupJson(record: Option<XmlWhoisRecord>)

  const EmptyRegistry: RegistryData := RegistryData("", "", "", "", "", None)

  const EmptyWhois: WhoisRecord := WhoisRecord("", "", NoRegistrar, "", "", "", "", "", None,
    "", "", "", "", "", "", "", "", "", "", "", "", "", "", "", "", None)

  function OrDefault(a: string, b: string): string { if a != "" then a else b }

  /** The object `getWhoisBackupData` builds from a fallback record. */
  function BackupRecord(rec: XmlWhoisRecord, parent: string): (w: WhoisRecord)
    ensures w.registrarName == "" && w.registrar.RegistrarRecord? && w.dates.Some?
    ensures w.domainName != "" || parent == ""
  {
    var rd := rec.registryData.GetOr(EmptyRegistry);
    var reg := rd.registrant;
    EmptyWhois.(
      domainName := OrDefault(rec.domainName, parent),
      registrar := RegistrarRecord(
        OrDefault(OrDefault(rec.registrarName, rd.registrarName), "Unknown"),
        OrDefault(rec.registrarIANAID, "Unknown"),
        if rd.whoisServer != "" then Some("https://" + rd.whoisServer) else None),
      dates := Some(DateBlock(OrDefault(rd.expiresDateNormalized, "Unknown"),
                              OrDefault(rd.updatedDateNormalized, "Unknown"),
                              OrDefault(rd.createdDateNormalized, "Unknown"))),
      whois := Some(if reg.Some? then
                      Registrant(reg.value.name, reg.value.organization, reg.value.street1,
                                 reg.value.state, reg.value.countryCode, reg.value.postalCode)
                    else Registrant("", "", "", "", "", "")))
  }

  /** `getWhoisBackupData`: nothing without an API key; otherwise the fallback
      API is asked about the parent domain, and any failure gives nothing. */
  function BackupWhois(domain: string, apiKey: string, api: (string, string) -> BackupAnswer): (r: Option<WhoisRecord>)
    ensures apiKey == "" ==> r == None
    ensures var a := api(apiKey, ParentDomain(domain));
      (r.Some? <==> apiKey != "" && a.BackupJson? && a.record.Some?)
      && (r.Some? ==> r.value == BackupRecord(a.record.value, ParentDomain(domain)))
  {
    if apiKey == "" then None
    else
      var parent := ParentDomain(domain);
      match api(apiKey, parent)
      case BackupFetchFailed => None
      case BackupHttpError => None
      case BackupJson(rec) => if rec.Some? then Some(BackupRecord(rec.value, parent)) else None
  }

  /** `getWhoisData`: the primary answer for the parent domain when it has
      data, the fallback when it is empty, nothing when it failed. */
  function WhoisLookup(domain: string, apiKey: string, whois: string -> WhoisAnswer,
                       api: (string, string) -> BackupAnswer): (r: Option<WhoisRecord>)
    ensures whois(ParentDomain(domain)).WhoisData? ==> r == Some(whois(ParentDomain(domain)).record)
    ensures whois(ParentDomain(domain)).WhoisFailed? ==> r == None
    ensures whois(ParentDomain(domain)).WhoisEmpty? ==> r == BackupWhois(domain, apiKey, api)
  {
    match whois(ParentDomain(domain))
    case WhoisData(rec) => Some(rec)
    case WhoisFailed => None
    case WhoisEmpty => BackupWhois(domain, apiKey, api)
  }

  // ---------------------------------------------------------------------
  // TLS certificate and host lookup
  // ---------------------------------------------------------------------

  datatype CertName = CertName(o: string, c: string, cn: string)

  /** The peer-certificate fields the route reads; "" or 0 for a missing field. */
  datatype Certificate = Certificate(issuer: Option<CertName>, subject: Option<CertName>,
                                     validFrom: string, validTo: string, fingerprint: string,
                                     bits: nat, asn1Curve: string)

  /** A TLS probe: a socket error, or a connection whose `getPeerCertificate()`
      gave a certificate object or `null`. */
  datatype TlsAnswer = TlsError | TlsConnected(cert: Option<Certificate>)

  /** `getSslCertificateDetails`: rejects on a socket error or when
      `getPeerCertificate()` gave `null`. */
  function CertificateDetails(answer: TlsAnswer): (r: Settled<Certificate>)
    ensures r.Resolved? <==> answer.TlsConnected? && answer.cert.Some?
    ensures r.Resolved? ==> r.value == answer.cert.value
  {
    match answer
    case TlsError => Rejected
    case TlsConnected(c) => if c.Some? then Resolved(c.value) else Rejected
  }

  /** The geolocation record of an IP address. */
  datatype HostData = HostData(query: string, country: string, regionName: string, region: string,
                               city: string, isp: string, org: string, asName: string)

  /** The geolocation API: a failed fetch, a non-OK status, or a JSON body. */
  datatype HostAnswer = HostFetchFailed | HostHttpError | HostJson(data: HostData)

  /** `getHostData`: never rejects; a failure gives `undefined`, and a
      non-empty `regionName` is copied into `region`. */
  function HostLookup(answer: HostAnswer): (r: Settled<Option<HostData>>)
    ensures r.Resolved?
    ensures r.value.Some? <==> answer.HostJson?
    ensures answer.HostJson? && answer.data.regionName != "" ==>
              r.value == Some(answer.data.(region := answer.data.regionName))
    ensures answer.HostJson? && answer.data.regionName == "" ==> r.value == Some(answer.data)
  {
    match answer
    case HostJson(data) =>
      Resolved(Some(if data.regionName != "" then data.(region := data.regionName) else data))
    case HostFetchFailed => Resolved(None)
    case HostHttpError => Resolved(None)
  }

  // ---------------------------------------------------------------------
  // Assembly
  // ---------------------------------------------------------------------

  datatype Dates = Dates(expiryDate: Option<string>, updatedDate: Option<string>, creationDate: Option<string>)
  datatype RegistrarInfo = RegistrarInfo(name: RegistrarValue, id: Option<string>, url: Option<string>,
                                         registryDomainId: Option<string>)
  datatype ContactInfo = ContactInfo(name: Option<string>, organization: Option<string>, street: Option<string>,
                                     city: Option<string>, country: Option<string>, state: Option<string>,
                                     postalCode: Option<string>)
  datatype AbuseInfo = AbuseInfo(email: Option<string>, phone: Option<string>)
  datatype DnsInfo = DnsInfo(dnssec: Option<string>, nameServers: seq<string>, mxRecords: seq<string>,
                             txtRecords: seq<string>)
  datatype SslInfo = SslInfo(issuer: Option<string>, issuerCountry: string, validFrom: string, validTo: string,
                             subject: string, fingerprint: string, keySize: nat, signatureAlgorithm: string)

  /** The `domainInfo` record of the response. */
  datatype DomainLookup = DomainLookup(
    domainName: Option<string>, status: seq<string>, ipv4: seq<string>, ipv6: seq<string>,
    dates: Dates, registrar: RegistrarInfo, whois: ContactInfo, abuse: AbuseInfo,
    dns: DnsInfo, ssl: SslInfo, host: Option<HostData>)

  /** A string field read with `|| null`. */
  function NonEmpty(s: string): (r: Option<string>)
    ensures r.Some? <==> s != ""
    ensures r.Some? ==> r.value == s
    ensures Some(JsValues.OfNullable(r)) == JsValues.Or(Some(JsValues.Str(s)), Some(JsValues.Null))
  {
    if s != "" then Some(s) else None
  }

  /** `a || b`, read with `|| null`. */
  function FirstNonEmpty(a: string, b: string): (r: Option<string>)
    ensures Some(JsValues.OfNullable(r))
      == JsValues.Or(JsValues.Or(Some(JsValues.Str(a)), Some(JsValues.Str(b))), Some(JsValues.Null))
  {
    if a != "" then Some(a) else NonEmpty(b)
  }

  /** The registrar name, with the source's operator precedence:
      `registrarName || (typeof registrar === 'string')` is the condition of
      the conditional, so any non-empty `registrarName` selects the whole
      `registrar` entry, and `registrarName` itself is never the result. */
  function RegistrarName(w: WhoisRecord): RegistrarValue
  {
    if w.registrarName != "" || w.registrar.RegistrarText? then w.registrar
    else if w.registrar.RegistrarRecord? && w.registrar.name != "" then RegistrarText(w.registrar.name)
    else NoRegistrar
  }

  /** The value of `registrarName` never reaches the response: whenever it
      is set, the result is the raw `registrar` entry, and when that entry
      is missing the name is lost entirely. */
  lemma RegistrarNameIgnoresRegistrarName(w: WhoisRecord, other: string)
    requires w.registrarName != "" && other != ""
    ensures RegistrarName(w) == w.registrar
    ensures RegistrarName(w.(registrarName := other)) == RegistrarName(w)
  {
  }

  lemma RegistrarNameLost()
    ensures RegistrarName(EmptyWhois.(registrarName := "Example Registrar")) == NoRegistrar
  {
  }

  /** The fallback record's registrar object always yields its name. */
  lemma BackupRegistrarName(rec: XmlWhoisRecord, parent: string)
    ensures RegistrarName(BackupRecord(rec, parent)) == RegistrarText(BackupRecord(rec, parent).registrar.name)
  {
  }

  function ExpiryDate(w: WhoisRecord): Option<string>
  {
    if w.expiryDate != "" then Some(w.expiryDate)
    else if w.registrarRegistrationExpirationDate != "" then Some(w.registrarRegistrationExpirationDate)
    else if w.dates.Some? then NonEmpty(w.dates.value.expiry) else None
  }

  function UpdatedDate(w: WhoisRecord): Option<string>
  {
    if w.lastUpdated != "" then Some(w.lastUpdated)
    else if w.updatedDate != "" then Some(w.updatedDate)
    else if w.dates.Some? then NonEmpty(w.dates.value.updated) else None
  }

  function CreationDate(w: WhoisRecord): Option<string>
  {
    if w.creationDate != "" then Some(w.creationDate)
    else if w.dates.Some? then NonEmpty(w.dates.value.creation) else None
  }

  function SslFields(cert: Option<Certificate>): SslInfo
  {
    match cert
    case None => SslInfo(None, "", "", "", "", "", 0, "")
    case Some(c) =>
      SslInfo(if c.issuer.Some? then NonEmpty(c.issuer.value.o) else None,
              if c.issuer.Some? then c.issuer.value.c else "",
              c.validFrom, c.validTo,
              if c.subject.Some? then c.subject.value.cn else "",
              c.fingerprint, c.bits, c.asn1Curve)
  }

  /** The `domainInfo` record literal, from the WHOIS object and the results
      of the guarded lookups (`None` where a lookup gave `undefined`). */
  function Assemble(w: WhoisRecord, ipv4: Option<seq<string>>, ipv6: Option<seq<string>>,
                    mx: Option<seq<string>>, txt: Option<seq<string>>, ns: Option<seq<string>>,
                    cert: Option<Certificate>, host: Option<HostData>): DomainLookup
  {
    DomainLookup(
      NonEmpty(w.domainName),
      StatusArray(w.domainStatus),
      ipv4.GetOr([]), ipv6.GetOr([]),
      Dates(ExpiryDate(w), UpdatedDate(w), CreationDate(w)),
      RegistrarInfo(RegistrarName(w), NonEmpty(w.registrarIanaId), NonEmpty(w.registrarUrl),
                    NonEmpty(w.registryDomainId)),
      ContactInfo(NonEmpty(w.registrantName), NonEmpty(w.registrantOrganization), NonEmpty(w.registrantStreet),
                  NonEmpty(w.registrantCity), NonEmpty(w.registrantCountry),
                  NonEmpty(w.registrantStateProvince), NonEmpty(w.registrantPostalCode)),
      AbuseInfo(FirstNonEmpty(w.abuseContactEmail, w.registrarAbuseContactEmail),
                FirstNonEmpty(w.abuseContactPhone, w.registrarAbuseContactPhone)),
      DnsInfo(NonEmpty(w.dnssec), ns.GetOr([]), mx.GetOr([]), txt.GetOr([])),
      SslFields(cert),
      host)
  }

  /** Lookups that gave `undefined` default to empty lists and to empty or
      zero certificate fields; the expiry date is read from the first of its
      three source fields that is set. */
  lemma AssemblyDefaults(w: WhoisRecord, host: Option<HostData>)
    ensures var r := Assemble(w, None, None, None, None, None, None, host);
      r.ipv4 == [] && r.ipv6 == [] && r.dns.nameServers == [] && r.dns.mxRecords == []
      && r.dns.txtRecords == [] && r.ssl == SslInfo(None, "", "", "", "", "", 0, "")
    ensures w.expiryDate == "" && w.registrarRegistrationExpirationDate != "" ==>
      Assemble(w, None, None, None, None, None, None, host).dates.expiryDate == Some(w.registrarRegistrationExpirationDate)
  {
  }

  /** The registrant fields of a fallback record are never read by the
      assembly, so they never reach the response. */
  lemma BackupContactDropped(rec: XmlWhoisRecord, parent: string, ipv4: Option<seq<string>>,
                             cert: Option<Certificate>, host: Option<HostData>)
    ensures Assemble(BackupRecord(rec, parent), ipv4, None, None, None, None, cert, host).whois
         == ContactInfo(None, None, None, None, None, None, None)
  {
  }

  // ---------------------------------------------------------------------
  // The handler
  // ---------------------------------------------------------------------

  /** The external services, as the answers they give to each query. */
  datatype Network = Network(
    whois: string -> WhoisAnswer,
    whoisXml: (string, string) -> BackupAnswer,
    resolve4: string -> DnsAnswer<seq<string>>,
    resolve6: string -> DnsAnswer<seq<string>>,
    resolveMx: string -> DnsAnswer<seq<MxRecord>>,
    resolveTxt: string -> DnsAnswer<seq<seq<string>>>,
    resolveNs: string -> DnsAnswer<seq<string>>,
    tls: string -> TlsAnswer,
    ipApi: string -> HostAnswer)

  /** The outcome of the request's authentication check. */
  datatype AuthResult = AuthOk | AuthFailed(message: string)

  datatype Response =
    | Unauthorized(statusCode: nat, message: string)
    | Failure(error: string)
    | Success(domainInfo: DomainLookup, errors: Option<seq<string>>)

  const MsgDomainRequired: string := "Domain name is required"
  const MsgWhoisFailed: string := "Failed to fetch WHOIS data"
  const MsgIpv4: string := "Failed to fetch IPv4 addresses"
  const MsgIpv6: string := "Failed to fetch IPv6 addresses"
  const MsgMx: string := "Failed to fetch MX records"
  const MsgTxt: string := "Failed to fetch TXT records"
  const MsgNs: string := "Failed to fetch name servers"
  const MsgSsl: string := "Failed to fetch SSL certificate details"
  const MsgHost: string := "Failed to fetch IP information"

  /** The geolocation of the first IPv4 address, or nothing when there is none. */
  function HostFor(ipv4: seq<string>, net: Network): Option<HostData>
  {
    if |ipv4| > 0 then HostLookup(net.ipApi(ipv4[0])).value else None
  }

  /** The response of the route, as a function of its inputs. */
  function DomainInfoResponse(auth: AuthResult, domainParam: Option<string>, apiKey: string, net: Network): Response
  {
    if auth.AuthFailed? then Unauthorized(401, auth.message)
    else if domainParam == None || domainParam.value == "" then Failure(MsgDomainRequired)
    else
      var d := domainParam.value;
      var w := WhoisLookup(d, apiKey, net.whois, net.whoisXml);
      if w == None then Failure(MsgWhoisFailed)
      else
        var ipv4 := AddressList(net.resolve4(d)).value;
        var cert := CertificateDetails(net.tls(d));
        Success(
          Assemble(w.value, Some(ipv4), Some(AddressList(net.resolve6(d)).value),
                   Some(MxList(net.resolveMx(d)).value), Some(TxtList(net.resolveTxt(d)).value),
                   Some(AddressList(net.resolveNs(d)).value),
                   if cert.Resolved? then Some(cert.value) else None,
                   HostFor(ipv4, net)),
          if cert.Rejected? then Some([MsgSsl]) else None)
  }

  /** The route handler: the authentication and parameter checks, the WHOIS
      lookup, the guarded lookups sharing one error list, the host lookup
      for the first IPv4 address, then the assembly. */
  method HandleDomainInfo(auth: AuthResult, domainParam: Option<string>, apiKey: string, net: Network)
    returns (resp: Response)
    ensures resp == DomainInfoResponse(auth, domainParam, apiKey, net)
  {
    if auth.AuthFailed? {
      return Unauthorized(401, auth.message);
    }
    if domainParam == None || domainParam.value == "" {
      return Failure(MsgDomainRequired);
    }
    var domain := domainParam.value;
    var log := new ErrorLog();
    var whoisData := WhoisLookup(domain, apiKey, net.whois, net.whoisXml);
    if whoisData == None {
      return Failure(MsgWhoisFailed);
    }
    var ipv4 := log.SafeExecute(AddressList(net.resolve4(domain)), MsgIpv4);
    var ipv6 := log.SafeExecute(AddressList(net.resolve6(domain)), MsgIpv6);
    var mx := log.SafeExecute(MxList(net.resolveMx(domain)), MsgMx);
    var txt := log.SafeExecute(TxtList(net.resolveTxt(domain)), MsgTxt);
    var ns := log.SafeExecute(AddressList(net.resolveNs(domain)), MsgNs);
    assert log.errors == [];
    var cert := CertificateDetails(net.tls(domain));
    var ssl := log.SafeExecute(cert, MsgSsl);
    assert log.errors == if cert.Rejected? then [MsgSsl] else [];
    var hostInfo: Option<HostData> := None;
    if ipv4.Some? && |ipv4.value| > 0 {
      var h := log.SafeExecute(HostLookup(net.ipApi(ipv4.value[0])), MsgHost);
      hostInfo := h.value;
    }
    assert hostInfo == HostFor(ipv4.value, net);
    assert log.errors == if cert.Rejected? then [MsgSsl] else [];
    var info := Assemble(whoisData.value, ipv4, ipv6, mx, txt, ns, ssl, hostInfo);
    resp := Success(info, if |log.errors| > 0 then Some(log.errors) else None);
  }

  /** Only the TLS probe can add to `errors`: the DNS helpers and the host
      lookup never reject. `errors` is absent exactly when the probe
      succeeded. */
  lemma ErrorsOnlyFromTls(auth: AuthResult, domainParam: Option<string>, apiKey: string, net: Network)
    ensures var r := DomainInfoResponse(auth, domainParam, apiKey, net);
      r.Success? ==>
        (r.errors == None || r.errors == Some([MsgSsl]))
        && (r.errors == None <==> CertificateDetails(net.tls(domainParam.value)).Resolved?)
  {
  }

  /** Failing inputs are fatal and produce only the error message. */
  lemma FatalInputs(auth: AuthResult, domainParam: Option<string>, apiKey: string, net: Network)
    ensures auth.AuthOk? && (domainParam == None || domainParam == Some("")) ==>
      DomainInfoResponse(auth, domainParam, apiKey, net) == Failure(MsgDomainRequired)
    ensures auth.AuthOk? && domainParam.Some? && domainParam.value != ""
            && WhoisLookup(domainParam.value, apiKey, net.whois, net.whoisXml) == None ==>
      DomainInfoResponse(auth, domainParam, apiKey, net) == Failure(MsgWhoisFailed)
    ensures auth.AuthOk? && domainParam.Some? && domainParam.value != ""
            && net.whois(ParentDomain(domainParam.value)).WhoisEmpty? && apiKey == "" ==>
      DomainInfoResponse(auth, domainParam, apiKey, net) == Failure(MsgWhoisFailed)
  {
  }

  /** The host lookup is made only for a non-empty IPv4 list, on its first
      address; otherwise `host` is absent. */
  lemma HostFromFirstIpv4(auth: AuthResult, domainParam: Option<string>, apiKey: string, net: Network)
    ensures var r := DomainInfoResponse(auth, domainParam, apiKey, net);
      r.Success? ==>
        (r.domainInfo.ipv4 == [] ==> r.domainInfo.host == None)
        && (r.domainInfo.ipv4 != [] ==>
              r.domainInfo.host == HostLookup(net.ipApi(r.domainInfo.ipv4[0])).value)
  {
  }

  /** With no IPv4 address the geolocation service is never consulted: the
      response is the same whatever that service would answer. */
  lemma NoGeolocationWithoutIpv4(auth: AuthResult, domainParam: Option<string>, apiKey: string,
                                 net: Network, otherIpApi: string -> HostAnswer)
    requires domainParam.Some? && AddressList(net.resolve4(domainParam.value)).value == []
    ensures DomainInfoResponse(auth, domainParam, apiKey, net)
         == DomainInfoResponse(auth, domainParam, apiKey, net.(ipApi := otherIpApi))
  {
  }

  /** WHOIS succeeds while every other lookup fails: the lists are empty,
      the certificate fields take their defaults, there is no host, and the
      only error recorded is the certificate's (DNS failures are absorbed
      by the helpers and never reach `errors`). */
  lemma EverythingButWhoisFails(domain: string, apiKey: string, net: Network)
    requires domain != ""
    requires net.whois(ParentDomain(domain)).WhoisData?
    requires net.resolve4(domain).ResolveError? && net.resolve6(domain).ResolveError?
    requires net.resolveMx(domain).ResolveError? && net.resolveTxt(domain).ResolveError?
    requires net.resolveNs(domain).ResolveError? && net.tls(domain).TlsError?
    ensures var r := DomainInfoResponse(AuthOk, Some(domain), apiKey, net);
      r.Success? && r.errors == Some([MsgSsl])
      && r.domainInfo.ipv4 == [] && r.domainInfo.ipv6 == []
      && r.domainInfo.dns.nameServers == [] && r.domainInfo.dns.mxRecords == [] && r.domainInfo.dns.txtRecords == []
      && r.domainInfo.ssl == SslInfo(None, "", "", "", "", "", 0, "")
      && r.domainInfo.host == None
      && r.domainInfo.domainName == NonEmpty(net.whois(ParentDomain(domain)).record.domainName)
  {
  }
}
