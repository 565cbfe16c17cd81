/**
 * The QuarkLink client API: the device context record, its field getters
 * and setters, initialisation and enrolment, the two persisted regions of
 * non-volatile storage, and the status predicates.  The library ships
 * without source, so every operation states only what its documentation
 * promises; whatever the library answers (the provisioning service's
 * verdict, a storage fault) arrives as a parameter.
 */
module QuarkLink {
  import opened Wrappers
  import opened Codes
  import opened CStrings
  import Decimal

  // Array sizes of the context's string fields; each holds a C string, so
  // its text is at most one character shorter.
  const MAX_SHORT_DATA_LENGTH := 30
  const MAX_URI_LENGTH := 50
  const MAX_DEVICE_ID_LENGTH := 65
  const MAX_ENDPOINT_LENGTH := 128
  const MAX_KEY_LENGTH := 256
  const MAX_TOKEN_LENGTH := 650
  const MAX_SHORT_CERT_LENGTH := 1500
  const MAX_LONG_CERT_LENGTH := 2048

  /** A device ID is always a 64-character string. */
  const DEVICE_ID_CHARS := 64

  type uint16 = x: int | 0 <= x < 0x1_0000

  /** The fields of `quarklink_context_t`, as one value.  An empty string or
      a zero port is a field that is not set. */
  datatype ContextValue = ContextValue(
    rootCert: string, tempCert: string, endpoint: string, port: uint16,
    deviceID: string, deviceCert: string,
    token: string, uri: string, database: string, dataSource: string,
    iotHubRootCert: string, iotHubEndpoint: string, iotHubPort: uint16,
    scopeID: string, fwUpdateTopic: string)
  {
    /** Every array field's string fits its array.  The three pointer fields
        have no array: tempCert, which getTempCert copies into a buffer, is
        given the 2048 bytes of the long certificate arrays, while scopeID
        and fwUpdateTopic are C strings of any length. */
    predicate WellFormed() {
      Fits(rootCert, MAX_SHORT_CERT_LENGTH) && Fits(tempCert, MAX_LONG_CERT_LENGTH) &&
      Fits(endpoint, MAX_ENDPOINT_LENGTH) && Fits(deviceID, MAX_DEVICE_ID_LENGTH) &&
      Fits(deviceCert, MAX_LONG_CERT_LENGTH) && Fits(token, MAX_TOKEN_LENGTH) &&
      Fits(uri, MAX_URI_LENGTH) && Fits(database, MAX_SHORT_DATA_LENGTH) &&
      Fits(dataSource, MAX_SHORT_DATA_LENGTH) && Fits(iotHubRootCert, MAX_LONG_CERT_LENGTH) &&
      Fits(iotHubEndpoint, MAX_ENDPOINT_LENGTH) && NoNul(scopeID) && NoNul(fwUpdateTopic)
    }

    /** quarklink_init always sets the device ID, so a context without one
        has not been initialised. */
    predicate Initialised() {
      deviceID != ""
    }
  }

  /** A zeroed context: every field unset. */
  const Erased := ContextValue("", "", "", 0, "", "", "", "", "", "", "", "", 0, "", "")

  /** What persistContext stores: the QuarkLink details. */
  datatype Bootstrap = Bootstrap(rootCert: string, endpoint: string, port: uint16)

  /** What persistEnrolmentContext stores: the enrolment details. */
  datatype EnrolmentRecord = EnrolmentRecord(
    deviceCert: string, iotHubEndpoint: string, iotHubPort: uint16,
    iotHubRootCert: string, scopeID: string, fwUpdateTopic: string)

  function BootstrapOf(v: ContextValue): Bootstrap {
    Bootstrap(v.rootCert, v.endpoint, v.port)
  }

  function EnrolmentOf(v: ContextValue): EnrolmentRecord {
    EnrolmentRecord(v.deviceCert, v.iotHubEndpoint, v.iotHubPort, v.iotHubRootCert, v.scopeID, v.fwUpdateTopic)
  }

  function WithBootstrap(v: ContextValue, b: Bootstrap): ContextValue {
    v.(rootCert := b.rootCert, endpoint := b.endpoint, port := b.port)
  }

  function WithEnrolment(v: ContextValue, e: EnrolmentRecord): ContextValue {
    v.(deviceCert := e.deviceCert, iotHubEndpoint := e.iotHubEndpoint, iotHubPort := e.iotHubPort,
       iotHubRootCert := e.iotHubRootCert, scopeID := e.scopeID, fwUpdateTopic := e.fwUpdateTopic)
  }

  predicate BootstrapFits(b: Bootstrap) {
    Fits(b.rootCert, MAX_SHORT_CERT_LENGTH) && Fits(b.endpoint, MAX_ENDPOINT_LENGTH)
  }

  predicate RecordFits(e: EnrolmentRecord) {
    Fits(e.deviceCert, MAX_LONG_CERT_LENGTH) && Fits(e.iotHubEndpoint, MAX_ENDPOINT_LENGTH) &&
    Fits(e.iotHubRootCert, MAX_LONG_CERT_LENGTH) && NoNul(e.scopeID) && NoNul(e.fwUpdateTopic)
  }

  /** The two regions of non-volatile storage, each present or absent. */
  datatype Stored = Stored(credentials: Option<Bootstrap>, enrolment: Option<EnrolmentRecord>) {
    predicate WellFormed() {
      (credentials.Some? ==> BootstrapFits(credentials.value)) &&
      (enrolment.Some? ==> RecordFits(enrolment.value))
    }
  }

  /** What the provisioning service hands back on enrolment. */
  datatype EnrolmentData = EnrolmentData(
    tempCert: string, deviceCert: string,
    token: string, uri: string, database: string, dataSource: string,
    iotHubRootCert: string, iotHubEndpoint: string, iotHubPort: uint16,
    scopeID: string, fwUpdateTopic: string)
  {
    /** Fits the context, and holds the four fields the API promises after
        a successful enrolment. */
    predicate Complete() {
      Fits(tempCert, MAX_LONG_CERT_LENGTH) && Fits(deviceCert, MAX_LONG_CERT_LENGTH) &&
      Fits(token, MAX_TOKEN_LENGTH) && Fits(uri, MAX_URI_LENGTH) &&
      Fits(database, MAX_SHORT_DATA_LENGTH) && Fits(dataSource, MAX_SHORT_DATA_LENGTH) &&
      Fits(iotHubRootCert, MAX_LONG_CERT_LENGTH) && Fits(iotHubEndpoint, MAX_ENDPOINT_LENGTH) &&
      NoNul(scopeID) && NoNul(fwUpdateTopic) &&
      deviceCert != "" && iotHubRootCert != "" && iotHubEndpoint != "" && iotHubPort != 0
    }
  }

  /** The outcome of one quarklink_enrol call: its return code and, when
      that is SUCCESS, the data written into the context. */
  datatype EnrolAnswer = EnrolAnswer(code: ReturnCode, data: EnrolmentData) {
    predicate Honest() {
      code == Success ==> data.Complete()
    }
  }

  /** The context after a successful enrolment.  The bootstrap fields and
      the device ID are not touched. */
  function AfterEnrolment(v: ContextValue, d: EnrolmentData): (w: ContextValue)
    requires v.WellFormed() && d.Complete()
    ensures w.WellFormed()
    ensures BootstrapOf(w) == BootstrapOf(v) && w.deviceID == v.deviceID
    ensures w.deviceCert != "" && w.iotHubRootCert != "" && w.iotHubEndpoint != "" && w.iotHubPort != 0
  {
    v.(tempCert := d.tempCert, deviceCert := d.deviceCert, token := d.token, uri := d.uri,
       database := d.database, dataSource := d.dataSource, iotHubRootCert := d.iotHubRootCert,
       iotHubEndpoint := d.iotHubEndpoint, iotHubPort := d.iotHubPort, scopeID := d.scopeID,
       fwUpdateTopic := d.fwUpdateTopic)
  }

  /** The context after quarklink_enrol answered `a`. */
  function EnrolOutcome(v: ContextValue, a: EnrolAnswer): ContextValue
    requires v.WellFormed() && a.Honest()
  {
    if a.code == Success then AfterEnrolment(v, a.data) else v
  }

  /** quarklink_init: the context is erased first; on success only rootCert,
      endpoint, port and deviceID are set, and on failure it stays erased. */
  function Initialise(endpoint: string, port: uint16, rootCert: string, hardwareId: string): (res: (ContextValue, ReturnCode))
    requires |hardwareId| == DEVICE_ID_CHARS && NoNul(hardwareId)
    ensures res.1 == Success || res.1 == InvalidParameter
    ensures res.1 == Success <==> Fits(endpoint, MAX_ENDPOINT_LENGTH) && Fits(rootCert, MAX_SHORT_CERT_LENGTH)
    ensures res.0.WellFormed()
    ensures res.1 == Success ==>
      BootstrapOf(res.0) == Bootstrap(rootCert, endpoint, port) && res.0.deviceID == hardwareId &&
      res.0.Initialised() && EnrolmentOf(res.0) == EnrolmentOf(Erased) &&
      res.0.tempCert == res.0.token == res.0.uri == res.0.database == res.0.dataSource == ""
    ensures res.1 != Success ==> res.0 == Erased
  {
    if Fits(endpoint, MAX_ENDPOINT_LENGTH) && Fits(rootCert, MAX_SHORT_CERT_LENGTH) then
      (Erased.(rootCert := rootCert, endpoint := endpoint, port := port, deviceID := hardwareId), Success)
    else
      (Erased, InvalidParameter)
  }

  // ---- getters -------------------------------------------------------

  /** The string fields with a getter. */
  datatype Field = DeviceID | DeviceCert | RootCert | Endpoint | IoTHubCert | IoTHubEndpoint | TempCert

  /** The buffer size each getter demands: the size of the field's array.
      (The certificate getters name a QUARKLINK_MAX_CERTIFICATE_LENGTH that
      the header never defines.) */
  function Capacity(f: Field): nat {
    match f
    case DeviceID => MAX_DEVICE_ID_LENGTH
    case DeviceCert => MAX_LONG_CERT_LENGTH
    case RootCert => MAX_SHORT_CERT_LENGTH
    case Endpoint => MAX_ENDPOINT_LENGTH
    case IoTHubCert => MAX_LONG_CERT_LENGTH
    case IoTHubEndpoint => MAX_ENDPOINT_LENGTH
    case TempCert => MAX_LONG_CERT_LENGTH
  }

  function FieldOf(v: ContextValue, f: Field): (s: string)
    requires v.WellFormed()
    ensures Fits(s, Capacity(f))
  {
    match f
    case DeviceID => v.deviceID
    case DeviceCert => v.deviceCert
    case RootCert => v.rootCert
    case Endpoint => v.endpoint
    case IoTHubCert => v.iotHubRootCert
    case IoTHubEndpoint => v.iotHubEndpoint
    case TempCert => v.tempCert
  }

  /** The answer of a getter: a buffer shorter than the field's maximum is
      an invalid parameter; an unset field is not available. */
  function FetchCode(value: string, capacity: nat, length: int): ReturnCode {
    if length < capacity then InvalidParameter
    else if value == "" then ValueNotAvailable
    else Success
  }

  /** Copy a field into a caller's buffer of `buffer.Length` bytes. */
  method CopyOut(value: string, capacity: nat, buffer: array<char>) returns (r: ReturnCode)
    requires Fits(value, capacity)
    modifies buffer
    ensures r == FetchCode(value, capacity, buffer.Length)
    ensures r == Success ==> CString(buffer[..]) == value
    ensures r != Success ==> buffer[..] == old(buffer[..])
  {
    if buffer.Length < capacity {
      r := InvalidParameter;
    } else if value == "" {
      r := ValueNotAvailable;
    } else {
      WriteCString(buffer, value);
      r := Success;
    }
  }

  /** getDeviceKey / getEnrolmentKey: the keys are held by the library (or
      a secure element), not by the context; `held` is the PEM text it has,
      empty when it has none. */
  method GetKey(held: string, buffer: array<char>) returns (r: ReturnCode)
    requires Fits(held, MAX_KEY_LENGTH)
    modifies buffer
    ensures r == FetchCode(held, MAX_KEY_LENGTH, buffer.Length)
    ensures r == Success ==> CString(buffer[..]) == held
    ensures r != Success ==> buffer[..] == old(buffer[..])
  {
    r := CopyOut(held, MAX_KEY_LENGTH, buffer);
  }

  // ---- the URL ---------------------------------------------------------

  /** 'https://endpoint:port' */
  function Url(endpoint: string, port: nat): string {
    "https://" + endpoint + ":" + Decimal.Text(port)
  }

  /** Split at the last occurrence of `c`: the text before it and after it. */
  function SplitLast(s: string, c: char): Option<(string, string)> {
    if s == [] then None
    else if s[|s| - 1] == c then Some((s[..|s| - 1], []))
    else match SplitLast(s[..|s| - 1], c)
      case Some((a, b)) => Some((a, b + [s[|s| - 1]]))
      case None => None
  }

  lemma {:induction false} SplitLastAppend(a: string, c: char, b: string)
    requires c !in b
    ensures SplitLast(a + [c] + b, c) == Some((a, b))
  {
    var s := a + [c] + b;
    if b == [] {
      assert s[..|s| - 1] == a;
    } else {
      var b' := b[..|b| - 1];
      assert s[..|s| - 1] == a + [c] + b';
      assert s[|s| - 1] == b[|b| - 1];
      assert c !in b' by { assert forall i :: 0 <= i < |b'| ==> b'[i] == b[i]; }
      SplitLastAppend(a, c, b');
      assert b' + [b[|b| - 1]] == b;
    }
  }

  /** Read endpoint and port back out of a URL (the partner of Url). */
  function ParseUrl(u: string): Option<(string, nat)> {
    if |u| >= 8 && u[..8] == "https://" then
      match SplitLast(u[8..], ':')
      case Some((host, digits)) =>
        if digits != [] && Decimal.AllDigits(digits) then Some((host, Decimal.Parse(digits))) else None
      case None => None
    else None
  }

  lemma {:induction false} UrlRoundTrip(endpoint: string, port: nat)
    ensures ParseUrl(Url(endpoint, port)) == Some((endpoint, port))
  {
    var u := Url(endpoint, port);
    var digits := Decimal.Text(port);
    assert u[..8] == "https://";
    assert u[8..] == endpoint + [':'] + digits;
    assert ':' !in digits by {
      forall i | 0 <= i < |digits| ensures digits[i] != ':' {
        assert Decimal.IsDigit(digits[i]);
      }
    }
    SplitLastAppend(endpoint, ':', digits);
    Decimal.ParseText(port);
  }

  /** The URL is 9 characters plus the endpoint plus at most 5 port digits. */
  lemma {:induction false} UrlLength(endpoint: string, port: uint16)
    ensures |Url(endpoint, port)| == 9 + |endpoint| + |Decimal.Text(port)|
    ensures 1 <= |Decimal.Text(port)| <= 5
  {
    Decimal.TextLength(port, 5);
    assert Decimal.Pow10(5) == 100000;
  }

  /** The buffer size the getURL note asks for does not hold every URL: a
      127-character endpoint with port 6000 needs 141 bytes. */
  lemma {:induction false} UrlCanOutgrowDocumentedBuffer()
    ensures var endpoint := seq(MAX_ENDPOINT_LENGTH - 1, _ => 'q');
      Fits(endpoint, MAX_ENDPOINT_LENGTH) && |Url(endpoint, 6000)| + 1 == 141 > MAX_ENDPOINT_LENGTH
  {
    var endpoint := seq(MAX_ENDPOINT_LENGTH - 1, _ => 'q');
    assert Decimal.Text(6000) == "6000" by {
      assert Decimal.Text(6) == "6";
      assert Decimal.Text(60) == "60";
      assert Decimal.Text(600) == "600";
    }
    assert NUL !in endpoint by {
      forall i | 0 <= i < |endpoint| ensures endpoint[i] != NUL { }
    }
  }

  /** The answer of getURL for a buffer of `length` bytes. */
  function UrlCode(v: ContextValue, length: int): ReturnCode {
    if length < MAX_ENDPOINT_LENGTH then InvalidParameter
    else if v.endpoint == "" || v.port == 0 then ValueNotAvailable
    else if |Url(v.endpoint, v.port)| >= length then InvalidParameter
    else Success
  }

  // ---- status predicates ---------------------------------------------

  /** The device's standing as the library last heard it from a status call. */
  datatype Standing = Unknown | Enrolled | NotEnrolled | Revoked | PendingRevoke | CertificateExpired | FwUpdateAvailable

  /** A status call that returns a status code records it; an error leaves
      the previous standing. */
  function StandingAfter(answer: ReturnCode, previous: Standing): Standing {
    match answer
    case StatusEnrolled => Enrolled
    case StatusFwUpdateRequired => FwUpdateAvailable
    case StatusNotEnrolled => NotEnrolled
    case StatusCertificateExpired => CertificateExpired
    case StatusRevoked => Revoked
    case _ => previous
  }

  function Flag(b: bool): int { if b then 1 else 0 }

  function IsDeviceEnrolled(s: Standing): (r: int)
    ensures r == 0 || r == 1
    ensures r == 1 <==> s == Enrolled
  {
    Flag(s == Enrolled)
  }

  function IsDeviceNotEnrolled(s: Standing): (r: int)
    ensures r == 0 || r == 1
    ensures r == 1 <==> s == NotEnrolled
  {
    Flag(s == NotEnrolled)
  }

  function IsDeviceRevoked(s: Standing): (r: int)
    ensures r == 0 || r == 1
    ensures r == 1 <==> s == Revoked
  {
    Flag(s == Revoked)
  }

  function IsDevicePendingRevoke(s: Standing): (r: int)
    ensures r == 0 || r == 1
    ensures r == 1 <==> s == PendingRevoke
  {
    Flag(s == PendingRevoke)
  }

  function IsDeviceCertificateExpired(s: Standing): (r: int)
    ensures r == 0 || r == 1
    ensures r == 1 <==> s == CertificateExpired
  {
    Flag(s == CertificateExpired)
  }

  function IsDeviceFwUpdateAvailable(s: Standing): (r: int)
    ensures r == 0 || r == 1
    ensures r == 1 <==> s == FwUpdateAvailable
  {
    Flag(s == FwUpdateAvailable)
  }

  function TrueCount(s: Standing): int {
    IsDeviceEnrolled(s) + IsDeviceNotEnrolled(s) + IsDeviceRevoked(s) +
    IsDevicePendingRevoke(s) + IsDeviceCertificateExpired(s) + IsDeviceFwUpdateAvailable(s)
  }

  /** At most one predicate answers 1, and after a status call that returned
      a status code exactly one does: the one that code names. */
  lemma {:induction false} StatusPredicatesExclusive(answer: ReturnCode, previous: Standing)
    ensures TrueCount(previous) <= 1
    ensures IsStatusCode(answer) ==> TrueCount(StandingAfter(answer, previous)) == 1
    ensures IsDeviceEnrolled(StandingAfter(answer, previous)) == 1 <==>
              answer == StatusEnrolled || (!IsStatusCode(answer) && previous == Enrolled)
    ensures IsDeviceRevoked(StandingAfter(answer, previous)) == 1 <==>
              answer == StatusRevoked || (!IsStatusCode(answer) && previous == Revoked)
    ensures IsDeviceNotEnrolled(StandingAfter(answer, previous)) == 1 <==>
              answer == StatusNotEnrolled || (!IsStatusCode(answer) && previous == NotEnrolled)
    ensures IsDeviceCertificateExpired(StandingAfter(answer, previous)) == 1 <==>
              answer == StatusCertificateExpired || (!IsStatusCode(answer) && previous == CertificateExpired)
    ensures IsDeviceFwUpdateAvailable(StandingAfter(answer, previous)) == 1 <==>
              answer == StatusFwUpdateRequired || (!IsStatusCode(answer) && previous == FwUpdateAvailable)
    ensures IsDevicePendingRevoke(StandingAfter(answer, previous)) == 1 <==>
              !IsStatusCode(answer) && previous == PendingRevoke
  {
  }

  /** The status both applications act on after quarklink_status: ENROLLED
      without an IoT Hub endpoint counts as NOT_ENROLLED. */
  function EffectiveStatus(answer: ReturnCode, v: ContextValue): ReturnCode {
    if answer == StatusEnrolled && v.iotHubEndpoint == "" then StatusNotEnrolled else answer
  }

  // ---- non-volatile storage -------------------------------------------

  /** persistContext: store the QuarkLink details (rootCert, endpoint, port)
      and nothing else. */
  function StoreContext(v: ContextValue, s: Stored, nvmOk: bool): (Stored, ReturnCode) {
    if !v.Initialised() then (s, NotInitialised)
    else if !nvmOk then (s, NvmError)
    else (s.(credentials := Some(BootstrapOf(v))), Success)
  }

  /** persistEnrolmentContext: store the enrolment details and nothing else. */
  function StoreEnrolment(v: ContextValue, s: Stored, nvmOk: bool): (Stored, ReturnCode) {
    if !v.Initialised() then (s, NotInitialised)
    else if !nvmOk then (s, NvmError)
    else (s.(enrolment := Some(EnrolmentOf(v))), Success)
  }

  /** deleteEnrolmentContext: drop the enrolment region only. */
  function EraseEnrolment(s: Stored, nvmOk: bool): (Stored, ReturnCode) {
    if !nvmOk then (s, Error) else (s.(enrolment := None), Success)
  }

  /** deleteContext: drop the QuarkLink-details region only. */
  function EraseContext(s: Stored, nvmOk: bool): (Stored, ReturnCode) {
    if !nvmOk then (s, Error) else (s.(credentials := None), Success)
  }

  /** loadStoredContext: copy what is stored into the context and say which
      regions were there. */
  function LoadInto(v: ContextValue, s: Stored, nvmOk: bool): (ContextValue, ReturnCode) {
    if !v.Initialised() then (v, NotInitialised)
    else if !nvmOk then (v, NvmError)
    else match (s.credentials, s.enrolment)
      case (Some(b), Some(e)) => (WithEnrolment(WithBootstrap(v, b), e), Success)
      case (Some(b), None) => (WithBootstrap(v, b), ContextNoEnrolmentInfoStored)
      case (None, Some(e)) => (WithEnrolment(v, e), ContextNoCredentialsStored)
      case (None, None) => (v, ContextNothingStored)
  }

  /** Loading answers one of six codes, and keeps the context well formed. */
  lemma {:induction false} LoadOutcomes(v: ContextValue, s: Stored, nvmOk: bool)
    requires v.WellFormed() && s.WellFormed()
    ensures var (w, r) := LoadInto(v, s, nvmOk);
      r in {Success, ContextNoCredentialsStored, ContextNoEnrolmentInfoStored,
            ContextNothingStored, NotInitialised, NvmError} &&
      w.WellFormed() && w.deviceID == v.deviceID &&
      (r == Success <==> v.Initialised() && nvmOk && s.credentials.Some? && s.enrolment.Some?) &&
      (r == ContextNothingStored <==> v.Initialised() && nvmOk && s.credentials.None? && s.enrolment.None?) &&
      (r !in {Success, ContextNoEnrolmentInfoStored} ==> BootstrapOf(w) == BootstrapOf(v)) &&
      (r !in {Success, ContextNoCredentialsStored} ==> EnrolmentOf(w) == EnrolmentOf(v))
  {
  }

  /** What persistContext and persistEnrolmentContext wrote, a later load
      gives back, into any initialised context. */
  lemma {:induction false} PersistLoadRoundTrip(v: ContextValue, s: Stored, later: ContextValue)
    requires v.Initialised() && later.Initialised()
    ensures var (s1, r1) := StoreContext(v, s, true);
            var (s2, r2) := StoreEnrolment(v, s1, true);
            var (w, r) := LoadInto(later, s2, true);
      r1 == Success && r2 == Success && r == Success &&
      BootstrapOf(w) == BootstrapOf(v) && EnrolmentOf(w) == EnrolmentOf(v) &&
      w.deviceID == later.deviceID
  {
  }

  /** Each delete touches its own region only, and deleting twice is
      deleting once. */
  lemma {:induction false} DeletesAreSeparate(s: Stored)
    ensures EraseEnrolment(s, true).0.credentials == s.credentials
    ensures EraseContext(s, true).0.enrolment == s.enrolment
    ensures EraseEnrolment(EraseEnrolment(s, true).0, true) == EraseEnrolment(s, true)
    ensures EraseContext(EraseContext(s, true).0, true) == EraseContext(s, true)
  {
  }

  /** The two persists write disjoint regions. */
  lemma {:induction false} PersistsAreSeparate(v: ContextValue, s: Stored, nvmOk: bool)
    ensures StoreContext(v, s, nvmOk).0.enrolment == s.enrolment
    ensures StoreEnrolment(v, s, nvmOk).0.credentials == s.credentials
    ensures StoreContext(v, s, nvmOk).1 != Success ==> StoreContext(v, s, nvmOk).0 == s
    ensures StoreEnrolment(v, s, nvmOk).1 != Success ==> StoreEnrolment(v, s, nvmOk).0 == s
  {
  }

  /** The storage the library keeps, with its two regions. */
  class Nvm {
    var credentials: Option<Bootstrap>
    var enrolment: Option<EnrolmentRecord>

    function Value(): Stored
      reads this
    {
      Stored(credentials, enrolment)
    }

    ghost predicate Valid()
      reads this
    {
      Value().WellFormed()
    }

    /** Storage as a previous run left it. */
    constructor (s: Stored)
      requires s.WellFormed()
      ensures Valid() && Value() == s
    {
      credentials, enrolment := s.credentials, s.enrolment;
    }

    method Put(s: Stored)
      requires s.WellFormed()
      modifies this
      ensures Valid() && Value() == s
    {
      credentials, enrolment := s.credentials, s.enrolment;
    }
  }

  /** `quarklink_context_t`, updated in place by the API. */
  class Context {
    var rootCert: string
    var tempCert: string
    var endpoint: string
    var port: uint16
    var deviceID: string
    var deviceCert: string
    var token: string
    var uri: string
    var database: string
    var dataSource: string
    var iotHubRootCert: string
    var iotHubEndpoint: string
    var iotHubPort: uint16
    var scopeID: string
    var fwUpdateTopic: string

    function Value(): ContextValue
      reads this
    {
      ContextValue(rootCert, tempCert, endpoint, port, deviceID, deviceCert, token, uri, database,
                   dataSource, iotHubRootCert, iotHubEndpoint, iotHubPort, scopeID, fwUpdateTopic)
    }

    ghost predicate Valid()
      reads this
    {
      Value().WellFormed()
    }

    /** Overwrite every field with those of `v`, a few fields at a time. */
    method Assign(v: ContextValue)
      modifies this
      ensures Value() == v
    {
      AssignDetails(v);
      AssignIdentity(v);
      AssignCredentials(v);
      AssignIoTHub(v);
      AssignDatabaseDirect(v);
    }

    method AssignDetails(v: ContextValue)
      modifies this
      ensures Value() == old(Value()).(rootCert := v.rootCert, endpoint := v.endpoint, port := v.port)
    {
      rootCert := v.rootCert;
      endpoint := v.endpoint;
      port := v.port;
    }

    method AssignIdentity(v: ContextValue)
      modifies this
      ensures Value() == old(Value()).(deviceID := v.deviceID, tempCert := v.tempCert)
    {
      deviceID := v.deviceID;
      tempCert := v.tempCert;
    }

    method AssignCredentials(v: ContextValue)
      modifies this
      ensures Value() == old(Value()).(deviceCert := v.deviceCert, scopeID := v.scopeID, fwUpdateTopic := v.fwUpdateTopic)
    {
      deviceCert := v.deviceCert;
      scopeID := v.scopeID;
      fwUpdateTopic := v.fwUpdateTopic;
    }

    method AssignIoTHub(v: ContextValue)
      modifies this
      ensures Value() == old(Value()).(iotHubRootCert := v.iotHubRootCert, iotHubEndpoint := v.iotHubEndpoint,
                                       iotHubPort := v.iotHubPort)
    {
      iotHubRootCert := v.iotHubRootCert;
      iotHubEndpoint := v.iotHubEndpoint;
      iotHubPort := v.iotHubPort;
    }

    method AssignDatabaseDirect(v: ContextValue)
      modifies this
      ensures Value() == old(Value()).(token := v.token, uri := v.uri, database := v.database, dataSource := v.dataSource)
    {
      token := v.token;
      uri := v.uri;
      database := v.database;
      dataSource := v.dataSource;
    }

    /** A context variable as C defines it: zeroed. */
    constructor ()
      ensures Valid() && Value() == Erased
    {
      rootCert, tempCert, endpoint, port, deviceID := "", "", "", 0, "";
      deviceCert, token, uri, database, dataSource := "", "", "", "", "";
      iotHubRootCert, iotHubEndpoint, iotHubPort := "", "", 0;
      scopeID, fwUpdateTopic := "", "";
    }

    /** quarklink_init; `hardwareId` is the ID the library derives from the
        device's hardware. */
    method Init(endpoint: string, port: uint16, rootCert: string, hardwareId: string) returns (r: ReturnCode)
      requires |hardwareId| == DEVICE_ID_CHARS && NoNul(hardwareId)
      modifies this
      ensures Valid()
      ensures (Value(), r) == Initialise(endpoint, port, rootCert, hardwareId)
    {
      var (v, code) := Initialise(endpoint, port, rootCert, hardwareId);
      Assign(v);
      r := code;
    }

    /** quarklink_enrol: on SUCCESS the enrolment data is written into the
        context; on any other answer the context is left as it was. */
    method Enrol(answer: EnrolAnswer) returns (r: ReturnCode)
      requires Valid() && answer.Honest()
      modifies this
      ensures Valid() && r == answer.code
      ensures Value() == if r == Success then AfterEnrolment(old(Value()), answer.data) else old(Value())
    {
      r := answer.code;
      if r == Success {
        Assign(AfterEnrolment(Value(), answer.data));
      }
    }

    /** The string getters (getDeviceID, getDeviceCert, getRootCert,
        getEndpoint, getIoTHubCert, getIoTHubEndpoint, getTempCert). */
    method GetField(f: Field, buffer: array<char>) returns (r: ReturnCode)
      requires Valid()
      modifies buffer
      ensures r == FetchCode(FieldOf(Value(), f), Capacity(f), buffer.Length)
      ensures r == Success <==> buffer.Length >= Capacity(f) && FieldOf(Value(), f) != ""
      ensures r == Success ==> CString(buffer[..]) == FieldOf(Value(), f)
      ensures r != Success ==> buffer[..] == old(buffer[..])
    {
      r := CopyOut(FieldOf(Value(), f), Capacity(f), buffer);
    }

    /** getPort / getIoTHubPort: a zero port is not available. */
    method GetPort(iotHub: bool) returns (r: ReturnCode, p: uint16)
      ensures var port := if iotHub then iotHubPort else port;
        (r == Success <==> port != 0) && (r == Success ==> p == port) &&
        (r != Success ==> r == ValueNotAvailable)
    {
      var stored := if iotHub then iotHubPort else port;
      if stored == 0 {
        r, p := ValueNotAvailable, 0;
      } else {
        r, p := Success, stored;
      }
    }

    /** getURL: 'https://endpoint:port' into the caller's buffer. */
    method GetUrl(buffer: array<char>) returns (r: ReturnCode)
      requires Valid()
      modifies buffer
      ensures r == UrlCode(Value(), buffer.Length)
      ensures r == Success ==> CString(buffer[..]) == Url(endpoint, port)
      ensures r == Success ==> ParseUrl(CString(buffer[..])) == Some((endpoint, port as nat))
      ensures r != Success ==> buffer[..] == old(buffer[..])
    {
      if buffer.Length < MAX_ENDPOINT_LENGTH {
        r := InvalidParameter;
      } else if endpoint == "" || port == 0 {
        r := ValueNotAvailable;
      } else if |Url(endpoint, port)| >= buffer.Length {
        r := InvalidParameter;
      } else {
        var url := Url(endpoint, port);
        assert NoNul(url) by {
          var digits := Decimal.Text(port);
          assert url == "https://" + endpoint + ":" + digits;
          forall i | 0 <= i < |digits| ensures digits[i] != NUL {
            assert Decimal.IsDigit(digits[i]);
          }
        }
        WriteCString(buffer, url);
        UrlRoundTrip(endpoint, port);
        r := Success;
      }
    }

    /** setRootCert: replaces the root certificate only. */
    method SetRootCert(rootCert: string) returns (r: ReturnCode)
      requires Valid()
      modifies this
      ensures Valid()
      ensures r == (if Fits(rootCert, MAX_SHORT_CERT_LENGTH) then Success else InvalidParameter)
      ensures Value() == if r == Success then old(Value()).(rootCert := rootCert) else old(Value())
    {
      if Fits(rootCert, MAX_SHORT_CERT_LENGTH) {
        this.rootCert := rootCert;
        r := Success;
      } else {
        r := InvalidParameter;
      }
    }

    /** setEndpoint: replaces the endpoint and port only. */
    method SetEndpoint(endpoint: string, port: uint16) returns (r: ReturnCode)
      requires Valid()
      modifies this
      ensures Valid()
      ensures r == (if Fits(endpoint, MAX_ENDPOINT_LENGTH) then Success else InvalidParameter)
      ensures Value() == if r == Success then old(Value()).(endpoint := endpoint, port := port) else old(Value())
    {
      if Fits(endpoint, MAX_ENDPOINT_LENGTH) {
        this.endpoint, this.port := endpoint, port;
        r := Success;
      } else {
        r := InvalidParameter;
      }
    }

    method PersistContext(nvm: Nvm, nvmOk: bool) returns (r: ReturnCode)
      requires Valid() && nvm.Valid()
      modifies nvm
      ensures nvm.Valid()
      ensures (nvm.Value(), r) == StoreContext(Value(), old(nvm.Value()), nvmOk)
    {
      var (s, code) := StoreContext(Value(), nvm.Value(), nvmOk);
      nvm.Put(s);
      r := code;
    }

    method PersistEnrolmentContext(nvm: Nvm, nvmOk: bool) returns (r: ReturnCode)
      requires Valid() && nvm.Valid()
      modifies nvm
      ensures nvm.Valid()
      ensures (nvm.Value(), r) == StoreEnrolment(Value(), old(nvm.Value()), nvmOk)
    {
      var (s, code) := StoreEnrolment(Value(), nvm.Value(), nvmOk);
      nvm.Put(s);
      r := code;
    }

    method LoadStoredContext(nvm: Nvm, nvmOk: bool) returns (r: ReturnCode)
      requires Valid() && nvm.Valid()
      modifies this
      ensures Valid()
      ensures (Value(), r) == LoadInto(old(Value()), nvm.Value(), nvmOk)
    {
      LoadOutcomes(Value(), nvm.Value(), nvmOk);
      var (v, code) := LoadInto(Value(), nvm.Value(), nvmOk);
      Assign(v);
      r := code;
    }

    method DeleteEnrolmentContext(nvm: Nvm, nvmOk: bool) returns (r: ReturnCode)
      requires nvm.Valid()
      modifies nvm
      ensures nvm.Valid()
      ensures (nvm.Value(), r) == EraseEnrolment(old(nvm.Value()), nvmOk)
    {
      var (s, code) := EraseEnrolment(nvm.Value(), nvmOk);
      nvm.Put(s);
      r := code;
    }

    method DeleteContext(nvm: Nvm, nvmOk: bool) returns (r: ReturnCode)
      requires nvm.Valid()
      modifies nvm
      ensures nvm.Valid()
      ensures (nvm.Value(), r) == EraseContext(old(nvm.Value()), nvmOk)
    {
      var (s, code) := EraseContext(nvm.Value(), nvmOk);
      nvm.Put(s);
      r := code;
    }
  }
}
