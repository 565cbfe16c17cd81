/**
 * The Database Direct application: the same status / enrol / firmware cycle
 * as the MQTT application, but it publishes by POSTing a JSON document to
 * the database the enrolment named, and it forgets its enrolment when a
 * POST is refused.
 *
 * The HTTP client, quarklink_status, quarklink_enrol and
 * quarklink_firmwareUpdate are answered by an `Inputs` value.
 */
module DatabaseDirect {
  import opened Wrappers
  import opened Codes
  import opened CStrings
  import opened QuarkLink
  import opened Schedule
  import Decimal

  // ---- the post counter --------------------------------------------------

  type int32 = x: int | -0x8000_0000 <= x < 0x8000_0000

  /** `count++` on a 32-bit int, taken to wrap in two's complement. */
  function Increment(c: int32): (d: int32)
    ensures c < 0x7fff_ffff ==> d == c + 1
    ensures c == 0x7fff_ffff ==> d == -0x8000_0000
  {
    if c == 0x7fff_ffff then -0x8000_0000 else c + 1
  }

  // ---- the request -------------------------------------------------------

  /** isDatabaseDirect: the enrolment gave the device a database token. */
  predicate IsDatabaseDirect(v: ContextValue) {
    v.token != ""
  }

  /** The fixed pieces of the body's format. */
  const COLLECTION_KEY := "{\"collection\":\""
  const DATABASE_KEY := "\",\"database\":\""
  const DATA_SOURCE_KEY := "\",\"dataSource\":\""
  const COUNT_KEY := "\",\"document\":{\"count\":"
  const CLOSING := "}}"

  /** The document databaseDirectPost sends, as its sprintf writes it. */
  function Body(v: ContextValue, count: int32): string {
    COLLECTION_KEY + v.deviceID + DATABASE_KEY + v.database + DATA_SOURCE_KEY + v.dataSource +
    COUNT_KEY + Decimal.SignedText(count) + CLOSING
  }

  /** The fixed text of the body is 69 characters, none of them NUL. */
  lemma BodyLength(v: ContextValue, count: int32)
    ensures |Body(v, count)| == 69 + |v.deviceID| + |v.database| + |v.dataSource| + |Decimal.SignedText(count)|
    ensures NoNul(Body(v, count)) <==>
      NoNul(v.deviceID) && NoNul(v.database) && NoNul(v.dataSource) && NoNul(Decimal.SignedText(count))
  {
    assert NoNul(COLLECTION_KEY) && NoNul(DATABASE_KEY) && NoNul(DATA_SOURCE_KEY) &&
           NoNul(COUNT_KEY) && NoNul(CLOSING);
  }

  /** "%d" writes no NUL. */
  lemma CountTextClean(count: int32)
    ensures NoNul(Decimal.SignedText(count))
  {
    var t := Decimal.SignedText(count);
    if count < 0 {
      assert t == "-" + t[1..];
      assert Decimal.AllDigits(t[1..]);
      assert NUL !in t[1..];
    }
  }

  /** "%d" of a 32-bit int takes at most 11 characters. */
  lemma {:induction false} CountTextLength(count: int32)
    ensures |Decimal.SignedText(count)| <= 11
    ensures count >= 0 ==> |Decimal.SignedText(count)| <= 10
  {
    assert Decimal.Pow10(10) == 10000000000 by {
      assert Decimal.Pow10(2) == 100;
      assert Decimal.Pow10(4) == 10000;
      assert Decimal.Pow10(8) == 100000000;
    }
    if count < 0 {
      Decimal.TextLength(-(count as int), 10);
    } else {
      Decimal.TextLength(count, 10);
    }
  }

  /** Text followed by "}}" keeps its last characters where they were. */
  lemma {:induction false} EndsWith(lead: string, t: string)
    requires |lead| >= 1
    ensures var b := lead + t + CLOSING;
      |b| == |lead| + |t| + 2 && b[|b| - 2..] == CLOSING && b[|b| - 2 - |t|..|b| - 2] == t &&
      b[|b| - 3 - |t|] == lead[|lead| - 1]
  {
    var b := lead + t + CLOSING;
    assert b[|b| - 2 - |t|..|b| - 2] == t;
  }

  /** The body up to the count's text. */
  function Head(v: ContextValue): string {
    COLLECTION_KEY + v.deviceID + DATABASE_KEY + v.database + DATA_SOURCE_KEY + v.dataSource + COUNT_KEY
  }

  lemma {:induction false} HeadSplit(v: ContextValue, count: int32)
    ensures |Head(v)| >= 1 && Head(v)[|Head(v)| - 1] == ':'
    ensures Body(v, count) == Head(v) + Decimal.SignedText(count) + CLOSING
  {
    var front := COLLECTION_KEY + v.deviceID + DATABASE_KEY + v.database + DATA_SOURCE_KEY + v.dataSource;
    assert Head(v) == front + COUNT_KEY;
    assert Head(v)[|Head(v)| - 1] == COUNT_KEY[|COUNT_KEY| - 1];
  }

  /** Where the count's text sits in a document that ends with it and "}}". */
  lemma {:induction false} CountAtEnd(head: string, count: int)
    requires |head| >= 1 && head[|head| - 1] == ':'
    ensures var b := head + Decimal.SignedText(count) + CLOSING;
      var t := Decimal.Text(if count < 0 then -count else count);
      |b| >= |t| + 3 && b[|b| - 2..] == CLOSING && b[|b| - 2 - |t|..|b| - 2] == t &&
      (b[|b| - 3 - |t|] == '-' <==> count < 0)
  {
    var t := Decimal.Text(if count < 0 then -count else count);
    if count < 0 {
      assert head + Decimal.SignedText(count) + CLOSING == (head + "-") + t + CLOSING;
      EndsWith(head + "-", t);
    } else {
      EndsWith(head, t);
    }
  }

  /** The count can be read back from the end of the body: its digits sit
      just before "}}", and a '-' precedes them exactly when it is negative. */
  lemma {:induction false} BodyRecordsCount(v: ContextValue, count: int32)
    ensures var b := Body(v, count);
      var magnitude := if count < 0 then -(count as int) else count as int;
      var k := |Decimal.Text(magnitude)|;
      |b| >= k + 3 && b[|b| - 2..] == "}}" && Decimal.AllDigits(b[|b| - 2 - k..|b| - 2]) &&
      Decimal.Parse(b[|b| - 2 - k..|b| - 2]) == magnitude &&
      (b[|b| - 3 - k] == '-' <==> count < 0)
  {
    HeadSplit(v, count);
    CountAtEnd(Head(v), count);
    Decimal.ParseText(if count < 0 then -(count as int) else count as int);
  }

  /** The size body has in src/main.c. */
  const BODY_BUFFER_AS_WRITTEN := 200

  /** Whether sprintf's output, terminator included, stays inside body[200]. */
  predicate BodyFitsAsWritten(v: ContextValue, count: int32) {
    Fits(Body(v, count), BODY_BUFFER_AS_WRITTEN)
  }

  /** A string of `n` copies of `c`. */
  function Run(n: nat, c: char): (r: string)
    ensures |r| == n && (c != NUL ==> NoNul(r))
  {
    if n == 0 then "" else Run(n - 1, c) + [c]
  }

  /** A well-formed context whose names are as long as their arrays allow. */
  function LongestNames(): (v: ContextValue)
    ensures v.WellFormed()
    ensures |v.deviceID| == DEVICE_ID_CHARS && |v.database| == |v.dataSource| == MAX_SHORT_DATA_LENGTH - 1
  {
    Erased.(deviceID := Run(DEVICE_ID_CHARS, 'd'), database := Run(MAX_SHORT_DATA_LENGTH - 1, 'b'),
            dataSource := Run(MAX_SHORT_DATA_LENGTH - 1, 's'))
  }

  /** 100000000 has nine digits. */
  lemma {:induction false} NineDigits()
    ensures |Decimal.SignedText(100000000)| == 9
  {
    assert Decimal.Pow10(8) == 100000000 by {
      assert Decimal.Pow10(4) == 10000;
    }
    Decimal.TextLength(100000000, 8);
    Decimal.TextLength(100000000, 9);
  }

  /** With a 64-character device ID, 29-character database and data-source
      names and a count of 100000000 the body is 200 characters: with its
      terminator, 201 bytes go into body[200]. */
  lemma {:induction false} BodyOverflowsAsWritten()
    ensures |Body(LongestNames(), 100000000)| == 200
    ensures !BodyFitsAsWritten(LongestNames(), 100000000)
  {
    NineDigits();
    BodyLength(LongestNames(), 100000000);
  }

  /** The body buffer this model uses: the longest body any well-formed
      context and any 32-bit count can give (69 + 64 + 29 + 29 + 11
      characters), plus the terminator. */
  const BODY_BUFFER_SIZE := 69 + (MAX_DEVICE_ID_LENGTH - 1) + 2 * (MAX_SHORT_DATA_LENGTH - 1) + 11 + 1

  lemma BodyFits(v: ContextValue, count: int32)
    requires v.WellFormed()
    ensures Fits(Body(v, count), BODY_BUFFER_SIZE)
  {
    BodyLength(v, count);
    CountTextLength(count);
    CountTextClean(count);
  }

  /** The request databaseDirectPost sends: to the IoT Hub endpoint and port,
      at the enrolment's URI, trusting the IoT Hub root certificate, with the
      token in the jwtTokenString header and the JSON document as its body. */
  datatype Request = Request(host: string, port: uint16, path: string, rootCert: string,
                             token: string, body: string)

  function RequestOf(v: ContextValue, count: int32): Request {
    Request(v.iotHubEndpoint, v.iotHubPort, v.uri, v.iotHubRootCert, v.token, Body(v, count))
  }

  /** How esp_http_client_perform ends: with an HTTP status, or failed. */
  datatype HttpOutcome = Responded(status: int) | TransportFailed

  const HTTP_UNAUTHORIZED := 401

  /** databaseDirectPost's answer: 0 (ESP_OK) when the request completed
      with any status but 401, 401 for 401, QUARKLINK_ERROR otherwise. */
  function PostResult(o: HttpOutcome): (r: int)
    ensures r == 0 <==> o.Responded? && o.status != HTTP_UNAUTHORIZED
    ensures r == HTTP_UNAUTHORIZED <==> o == Responded(HTTP_UNAUTHORIZED)
    ensures r == Value(Error) <==> o.TransportFailed?
  {
    match o
    case TransportFailed => Value(Error)
    case Responded(status) => if status == HTTP_UNAUTHORIZED then HTTP_UNAUTHORIZED else 0
  }

  // ---- the response ------------------------------------------------------

  const RX_BUFFER_SIZE := 500

  /** The HTTP client events http_event_handler sees. */
  datatype HttpEvent =
    | EventError | OnConnected | HeaderSent | OnHeader(key: string, value: string)
    | OnData(data: string, chunked: bool) | OnFinish | Disconnected | Redirect

  /** The writes an event makes stay inside a buffer of `capacity` chars. */
  predicate InBounds(len: nat, e: HttpEvent, capacity: nat) {
    match e
    case OnData(data, chunked) => chunked || len + |data| <= capacity
    case OnFinish => len < capacity
    case _ => true
  }

  /** http_event_handler on (buffer, output_len): a non-chunked body chunk is
      appended at output_len, the end of the response writes a terminator
      there and resets output_len, a disconnect resets it. */
  function Receive(buf: seq<char>, len: nat, e: HttpEvent): (seq<char>, nat)
    requires InBounds(len, e, |buf|)
  {
    match e
    case OnData(data, chunked) =>
      if chunked then (buf, len)
      else (buf[..len] + data + buf[len + |data|..], len + |data|)
    case OnFinish => (buf[len := NUL], 0)
    case Disconnected => (buf, 0)
    case _ => (buf, len)
  }

  function Concat(chunks: seq<string>): string {
    if chunks == [] then "" else Concat(chunks[..|chunks| - 1]) + chunks[|chunks| - 1]
  }

  /** A response delivered as non-chunked pieces leaves the buffer holding
      the pieces in order, terminated, and output_len back at 0. */
  lemma {:induction false} ReceiveResponse(buf: seq<char>, chunks: seq<string>)
    requires |Concat(chunks)| < |buf|
    ensures var (b, n) := ReceiveAll(buf, 0, chunks);
      var (b2, n2) := Receive(b, n, OnFinish);
      n2 == 0 && b2[..n] == Concat(chunks) && b2[n] == NUL &&
      (NoNul(Concat(chunks)) ==> CString(b2) == Concat(chunks))
  {
    var (b, n) := ReceiveAll(buf, 0, chunks);
    var (b2, n2) := Receive(b, n, OnFinish);
    assert b2[..n] == b[..n] == b[0..n];
    if NoNul(Concat(chunks)) {
      CStringOfTerminated(b2, Concat(chunks));
    }
  }

  /** The handler run over a sequence of non-chunked pieces. */
  function ReceiveAll(buf: seq<char>, len: nat, chunks: seq<string>): (r: (seq<char>, nat))
    requires len + |Concat(chunks)| <= |buf|
    ensures r.1 == len + |Concat(chunks)| && |r.0| == |buf|
    ensures r.0[..len] == buf[..len] && r.0[len..r.1] == Concat(chunks)
    decreases |chunks|
  {
    if chunks == [] then (buf, len)
    else
      var init, last := chunks[..|chunks| - 1], chunks[|chunks| - 1];
      var (b, n) := ReceiveAll(buf, len, init);
      var r := Receive(b, n, OnData(last, false));
      assert r.0[len..r.1] == b[len..n] + last;
      r
  }

  /** memcpy(dst + at, data, |data|) */
  method MemCopy(dst: array<char>, at: nat, data: string)
    requires at + |data| <= dst.Length
    modifies dst
    ensures dst[..] == old(dst[..at]) + data + old(dst[at + |data|..])
  {
    ghost var after := old(dst[..at]) + data + old(dst[at + |data|..]);
    var i := 0;
    while i < |data|
      invariant 0 <= i <= |data|
      invariant forall k :: 0 <= k < dst.Length ==> dst[k] == if k < at + i then after[k] else old(dst[k])
    {
      dst[at + i] := data[i];
      i := i + 1;
    }
    assert forall k :: 0 <= k < dst.Length ==> dst[k] == after[k];
  }

  /** The handler's state: the static output_len and the rxBuffer of
      databaseDirectPost, which the client hands it as user_data. */
  class Receiver {
    const rxBuffer: array<char>
    var outputLen: nat

    constructor ()
      ensures rxBuffer.Length == RX_BUFFER_SIZE && outputLen == 0 && fresh(rxBuffer)
    {
      rxBuffer := new char[RX_BUFFER_SIZE](_ => NUL);
      outputLen := 0;
    }

    /** http_event_handler: always answers ESP_OK. */
    method Handle(e: HttpEvent) returns (r: int)
      requires InBounds(outputLen, e, rxBuffer.Length)
      modifies this`outputLen, rxBuffer
      ensures r == 0
      ensures (rxBuffer[..], outputLen) == Receive(old(rxBuffer[..]), old(outputLen), e)
    {
      match e {
      case OnData(data, chunked) =>
        if !chunked {
          MemCopy(rxBuffer, outputLen, data);
          outputLen := outputLen + |data|;
        }
      case OnFinish =>
        rxBuffer[outputLen] := NUL;
        outputLen := 0;
      case Disconnected =>
        outputLen := 0;
      case _ =>
      }
      r := 0;
    }
  }

  /** One response arriving in pieces and then finishing. */
  method DeliverResponse(receiver: Receiver, chunks: seq<string>)
    requires receiver.outputLen == 0 && |Concat(chunks)| < receiver.rxBuffer.Length
    modifies receiver, receiver.rxBuffer
    ensures receiver.outputLen == 0
    ensures receiver.rxBuffer[..|Concat(chunks)|] == Concat(chunks)
    ensures receiver.rxBuffer[|Concat(chunks)|] == NUL
    ensures NoNul(Concat(chunks)) ==> CString(receiver.rxBuffer[..]) == Concat(chunks)
  {
    ghost var buf := receiver.rxBuffer[..];
    var i := 0;
    while i < |chunks|
      invariant 0 <= i <= |chunks|
      invariant |Concat(chunks[..i])| <= |Concat(chunks)|
      invariant (receiver.rxBuffer[..], receiver.outputLen) == ReceiveAll(buf, 0, chunks[..i])
    {
      ConcatPrefix(chunks, i + 1);
      assert chunks[..i + 1][..i] == chunks[..i];
      var _ := receiver.Handle(OnData(chunks[i], false));
      i := i + 1;
    }
    assert chunks[..i] == chunks;
    var _ := receiver.Handle(OnFinish);
    ReceiveResponse(buf, chunks);
  }

  lemma {:induction false} ConcatPrefix(chunks: seq<string>, k: nat)
    requires k <= |chunks|
    ensures |Concat(chunks[..k])| <= |Concat(chunks)|
    decreases |chunks|
  {
    if k < |chunks| {
      assert chunks[..|chunks| - 1][..k] == chunks[..k];
      ConcatPrefix(chunks[..|chunks| - 1], k);
    } else {
      assert chunks[..k] == chunks;
    }
  }

  // ---- the task ----------------------------------------------------------

  /** What main_task keeps between passes, with the context and storage. */
  datatype State = State(round: uint32, qlStatus: ReturnCode, count: int32,
                         ctx: ContextValue, stored: Stored)
  {
    predicate WellFormed() {
      ctx.WellFormed() && stored.WellFormed()
    }
  }

  /** The answers to everything one pass may ask: quarklink_status, the
      first quarklink_enrol and its persist, quarklink_firmwareUpdate, the
      POST, and, after a refused POST, the delete, the second enrol and its
      persist. */
  datatype Inputs = Inputs(status: ReturnCode, enrol: EnrolAnswer, persistOk: bool,
                           firmware: ReturnCode, post: HttpOutcome,
                           eraseOk: bool, reEnrol: EnrolAnswer, rePersistOk: bool)
  {
    predicate Honest() {
      enrol.Honest() && reEnrol.Honest()
    }
  }

  datatype Ending = Continued | Restarted | Completed

  datatype Trace = Trace(statusChecked: bool, enrolAttempted: bool, firmwareRequested: bool,
                         posted: Option<Request>, reEnrolAttempted: bool, ending: Ending)

  datatype Pass = Pass(state: State, trace: Trace)

  const Quiet := Trace(false, false, false, None, false, Completed)

  /** Only NOT_ENROLLED and REVOKED lead to an enrol here; CERTIFICATE_EXPIRED
      is left alone. */
  predicate NeedsEnrolment(status: ReturnCode) {
    status == StatusNotEnrolled || status == StatusRevoked
  }

  /** A successful quarklink_enrol fills the context, persists the enrolment
      region, and makes ql_status ENROLLED; any other answer changes nothing. */
  function AfterEnrol(s: State, a: EnrolAnswer, persistOk: bool): State
    requires s.WellFormed() && a.Honest()
  {
    if a.code == Success then
      var ctx := AfterEnrolment(s.ctx, a.data);
      s.(ctx := ctx, stored := StoreEnrolment(ctx, s.stored, persistOk).0, qlStatus := StatusEnrolled)
    else s
  }

  /** The status check of a pass: the state after it and whether the pass
      goes on (Completed), starts over (Continued) or restarts the device. */
  function StatusPhase(s: State, inputs: Inputs): Pass
    requires s.WellFormed() && inputs.Honest()
  {
    var t := Quiet.(statusChecked := true);
    if !IsStatusCode(inputs.status) then Pass(s.(qlStatus := inputs.status), t.(ending := Continued))
    else
      var status := EffectiveStatus(inputs.status, s.ctx);
      var s1 := s.(qlStatus := status);
      var s2 := if NeedsEnrolment(status) then AfterEnrol(s1, inputs.enrol, inputs.persistOk) else s1;
      var t2 := t.(enrolAttempted := NeedsEnrolment(status));
      if s2.qlStatus == StatusFwUpdateRequired then
        Pass(s2, t2.(firmwareRequested := true,
                     ending := if inputs.firmware == FwUpdateUpdated then Restarted else Completed))
      else Pass(s2, t2)
  }

  /** What happens to a device whose POST was refused or whose enrolment is
      not Database Direct: the certificate and token are cleared, the stored
      enrolment is deleted, round restarts at 0 and ql_status is ERROR. */
  function Forgotten(s: State, eraseOk: bool): State {
    s.(ctx := s.ctx.(deviceCert := "", token := ""), stored := EraseEnrolment(s.stored, eraseOk).0,
       round := 0, qlStatus := Error)
  }

  /** Whether a device counts as Database Direct rests on its token alone:
      forgetting an enrolment clears the token, and only an enrolment that
      hands out a token makes the device one again. */
  lemma DatabaseDirectByToken(s: State, eraseOk: bool, d: EnrolmentData)
    requires s.WellFormed() && d.Complete()
    ensures !IsDatabaseDirect(Forgotten(s, eraseOk).ctx)
    ensures Forgotten(s, eraseOk).ctx.WellFormed()
    ensures IsDatabaseDirect(AfterEnrolment(Forgotten(s, eraseOk).ctx, d)) <==> d.token != ""
  {
  }

  /** The publishing part of a pass: on every 5th round while ENROLLED. */
  function PublishPhase(s: State, inputs: Inputs): (State, Option<Request>, bool)
    requires s.WellFormed() && inputs.Honest()
  {
    if !(PublishTick(s.round) && s.qlStatus == StatusEnrolled) then (s, None, false)
    else if !IsDatabaseDirect(s.ctx) then (Forgotten(s, inputs.eraseOk), None, false)
    else
      var body := Some(RequestOf(s.ctx, s.count));
      if PostResult(inputs.post) == 0 then (s.(count := Increment(s.count), round := Next(s.round)), body, false)
      else
        var s1 := Forgotten(s, inputs.eraseOk);
        var ctx := EnrolOutcome(s1.ctx, inputs.reEnrol);
        (s1.(ctx := ctx, stored := StoreEnrolment(ctx, s1.stored, inputs.rePersistOk).0), body, true)
  }

  function Finish(s: State, t: Trace, inputs: Inputs): Pass
    requires s.WellFormed() && inputs.Honest()
  {
    var (s1, posted, reEnrolled) := PublishPhase(s, inputs);
    Pass(s1.(round := Next(s1.round)), t.(posted := posted, reEnrolAttempted := reEnrolled))
  }

  /** One pass of main_task's `while (1)` loop. */
  function Tick(s: State, inputs: Inputs): Pass
    requires s.WellFormed() && inputs.Honest()
  {
    if StatusTick(s.round) then
      var c := StatusPhase(s, inputs);
      if c.trace.ending == Completed then Finish(c.state, c.trace, inputs) else c
    else Finish(s, Quiet, inputs)
  }

  // ---- what a pass guarantees ------------------------------------------

  /** Unlike the MQTT application, only an unrecognised status answer makes
      the pass start over: enrol and firmware errors carry on. */
  lemma {:induction false} OnlyBadStatusContinues(s: State, inputs: Inputs)
    requires s.WellFormed() && inputs.Honest()
    ensures var t := Tick(s, inputs);
      (t.trace.ending == Continued <==> StatusTick(s.round) && !IsStatusCode(inputs.status)) &&
      (t.trace.ending == Continued ==> t.state.round == s.round) &&
      (t.trace.ending == Restarted <==>
         StatusTick(s.round) && inputs.status == StatusFwUpdateRequired && inputs.firmware == FwUpdateUpdated)
  {
  }

  /** CERTIFICATE_EXPIRED is ignored: no enrol, no firmware request, no
      POST, and the context and storage stay as they were. */
  lemma {:induction false} CertificateExpiredIgnored(s: State, inputs: Inputs)
    requires s.WellFormed() && inputs.Honest()
    requires StatusTick(s.round) && inputs.status == StatusCertificateExpired
    ensures var t := Tick(s, inputs);
      !t.trace.enrolAttempted && !t.trace.firmwareRequested && t.trace.posted == None &&
      t.state == s.(qlStatus := StatusCertificateExpired, round := Next(s.round))
  {
  }

  /** An enrol is attempted exactly on a status round whose effective status
      is NOT_ENROLLED or REVOKED.  Success writes the enrolment data, makes
      ql_status ENROLLED and persists the enrolment region when storage
      works; any other answer leaves the context and the storage alone. */
  lemma {:induction false} EnrolRule(s: State, inputs: Inputs)
    requires s.WellFormed() && inputs.Honest()
    ensures Tick(s, inputs).trace.enrolAttempted <==>
      StatusTick(s.round) && IsStatusCode(inputs.status) && NeedsEnrolment(EffectiveStatus(inputs.status, s.ctx))
    ensures var c := PublishEntry(s, inputs).state;
      Tick(s, inputs).trace.enrolAttempted ==>
        (inputs.enrol.code == Success ==>
           c.ctx == AfterEnrolment(s.ctx, inputs.enrol.data) && c.qlStatus == StatusEnrolled &&
           (s.ctx.Initialised() && inputs.persistOk ==> c.stored.enrolment == Some(EnrolmentOf(c.ctx)))) &&
        (inputs.enrol.code != Success ==> c.ctx == s.ctx && c.stored == s.stored)
    ensures var c := PublishEntry(s, inputs).state;
      !Tick(s, inputs).trace.enrolAttempted ==> c.ctx == s.ctx && c.stored == s.stored
  {
  }

  /** A successful enrol makes ql_status ENROLLED at once, and since a status
      round is also a publish round the device posts in the same pass when
      the enrolment gave it a token. */
  lemma {:induction false} EnrolPromotesAndPublishes(s: State, inputs: Inputs)
    requires s.WellFormed() && inputs.Honest()
    requires StatusTick(s.round) && IsStatusCode(inputs.status)
    requires NeedsEnrolment(EffectiveStatus(inputs.status, s.ctx)) && inputs.enrol.code == Success
    ensures var ctx := AfterEnrolment(s.ctx, inputs.enrol.data);
      var t := Tick(s, inputs);
      t.trace.enrolAttempted &&
      (IsDatabaseDirect(ctx) ==> t.trace.posted == Some(RequestOf(ctx, s.count))) &&
      (!IsDatabaseDirect(ctx) ==> t.trace.posted == None && t.state.round == 1 && t.state.qlStatus == Error)
  {
    StatusTickIsPublishTick(s.round);
  }

  /** A POST goes out exactly on a publish round of an ENROLLED Database
      Direct device, and carries the context's names and the current count. */
  lemma {:induction false} PostRule(s: State, inputs: Inputs)
    requires s.WellFormed() && inputs.Honest()
    ensures var t := Tick(s, inputs);
      var c := if StatusTick(s.round) then StatusPhase(s, inputs).state else s;
      (t.trace.posted.Some? <==>
         t.trace.ending == Completed && PublishTick(s.round) && c.qlStatus == StatusEnrolled &&
         IsDatabaseDirect(c.ctx)) &&
      (t.trace.posted.Some? ==> t.trace.posted.value == RequestOf(c.ctx, c.count) && t.trace.posted.value.token != "")
  {
  }

  /** Where the publishing part of a pass starts: after the status check on
      a status round, and from the pass's own state on any other round. */
  function PublishEntry(s: State, inputs: Inputs): (c: Pass)
    requires s.WellFormed() && inputs.Honest()
    ensures c.state.WellFormed() && c.state.round == s.round && c.state.count == s.count
    ensures c.state.ctx.deviceID == s.ctx.deviceID
    ensures Tick(s, inputs) == if c.trace.ending == Completed then Finish(c.state, c.trace, inputs) else c
  {
    if StatusTick(s.round) then StatusPhase(s, inputs) else Pass(s, Quiet)
  }

  /** The pass reaches the POST: it was not cut short, the round is a
      publish round, and the device is an ENROLLED Database Direct device. */
  predicate Posts(s: State, inputs: Inputs)
    requires s.WellFormed() && inputs.Honest()
  {
    var c := PublishEntry(s, inputs);
    c.trace.ending == Completed && PublishTick(s.round) && c.state.qlStatus == StatusEnrolled &&
    IsDatabaseDirect(c.state.ctx)
  }

  /** An accepted POST (any completed request but 401) counts one more post
      and advances round twice, whether or not the pass began with a status
      check; a publish round plus one is never a publish or status round,
      except at the wrap, where the skipped value is 0. */
  lemma {:induction false} AcceptedPost(s: State, inputs: Inputs)
    requires s.WellFormed() && inputs.Honest()
    requires Posts(s, inputs) && PostResult(inputs.post) == 0
    ensures var c := PublishEntry(s, inputs).state;
      var t := Tick(s, inputs);
      t.trace.posted == Some(RequestOf(c.ctx, s.count)) &&
      t.state == c.(count := Increment(s.count), round := Next(Next(s.round))) &&
      (s.round < UINT32_MODULUS - 1 ==> !PublishTick(Next(s.round)) && !StatusTick(Next(s.round))) &&
      (s.round == UINT32_MODULUS - 1 ==> t.state.round == 1 && StatusTick(Next(s.round)))
  {
    ExtraIncrementSkipsNoTick(s.round);
  }

  /** A refused POST (401 or a transport failure) clears the certificate and
      token, deletes the stored enrolment, enrols again and persists whatever
      the context then holds; round ends at 1 and ql_status at ERROR, so the
      next pass skips the status check and waits for round 20. */
  lemma {:induction false} RefusedPost(s: State, inputs: Inputs)
    requires s.WellFormed() && inputs.Honest()
    requires Posts(s, inputs) && PostResult(inputs.post) != 0
    ensures var c := PublishEntry(s, inputs).state;
      var t := Tick(s, inputs);
      var cleared := c.ctx.(deviceCert := "", token := "");
      var ctx := if inputs.reEnrol.code == Success then AfterEnrolment(cleared, inputs.reEnrol.data) else cleared;
      var erased := EraseEnrolment(c.stored, inputs.eraseOk).0;
      t.trace.reEnrolAttempted && t.trace.posted == Some(RequestOf(c.ctx, s.count)) &&
      t.state == State(1, Error, s.count, ctx, StoreEnrolment(ctx, erased, inputs.rePersistOk).0) &&
      !StatusTick(t.state.round)
  {
  }

  /** When the second enrol fails, the persist that follows it still runs and
      stores an enrolment record with an empty device certificate next to
      the IoT Hub endpoint the context held before the POST. */
  lemma {:induction false} RefusedPostCanStoreEmptyCertificate(s: State, inputs: Inputs)
    requires s.WellFormed() && inputs.Honest() && s.ctx.Initialised()
    requires Posts(s, inputs) && PostResult(inputs.post) != 0
    requires inputs.reEnrol.code != Success && inputs.rePersistOk
    ensures var c := PublishEntry(s, inputs).state;
      var t := Tick(s, inputs);
      t.state.stored.enrolment.Some? && t.state.stored.enrolment.value.deviceCert == "" &&
      t.state.stored.enrolment.value.iotHubEndpoint == c.ctx.iotHubEndpoint
  {
    RefusedPost(s, inputs);
  }

  /** An ENROLLED device whose enrolment carries no token is not a Database
      Direct device: on its next publish round it forgets its enrolment. */
  lemma {:induction false} NotDatabaseDirectForgets(s: State, inputs: Inputs)
    requires s.WellFormed() && inputs.Honest()
    requires var c := PublishEntry(s, inputs);
      c.trace.ending == Completed && PublishTick(s.round) && c.state.qlStatus == StatusEnrolled &&
      !IsDatabaseDirect(c.state.ctx)
    ensures var c := PublishEntry(s, inputs).state;
      var t := Tick(s, inputs);
      t.state == Forgotten(c, inputs.eraseOk).(round := 1) && t.trace.posted == None &&
      (inputs.eraseOk ==> t.state.stored.enrolment == None)
  {
  }

  /** Same bootstrap details, device ID and stored bootstrap region. */
  predicate Keeps(s: State, t: State) {
    BootstrapOf(t.ctx) == BootstrapOf(s.ctx) && t.ctx.deviceID == s.ctx.deviceID &&
    t.stored.credentials == s.stored.credentials && t.WellFormed()
  }

  lemma {:induction false} StatusPhaseKeeps(s: State, inputs: Inputs)
    requires s.WellFormed() && inputs.Honest()
    ensures Keeps(s, StatusPhase(s, inputs).state)
  {
  }

  lemma {:induction false} PublishPhaseKeeps(s: State, inputs: Inputs)
    requires s.WellFormed() && inputs.Honest()
    ensures Keeps(s, PublishPhase(s, inputs).0)
  {
  }

  /** A pass never touches the QuarkLink details, the device ID or the
      stored QuarkLink-details region, and keeps every field within its
      array. */
  lemma {:induction false} BootstrapUntouched(s: State, inputs: Inputs)
    requires s.WellFormed() && inputs.Honest()
    ensures Keeps(s, Tick(s, inputs).state)
  {
    if StatusTick(s.round) {
      var c := StatusPhase(s, inputs);
      StatusPhaseKeeps(s, inputs);
      if c.trace.ending == Completed {
        PublishPhaseKeeps(c.state, inputs);
      }
    } else {
      PublishPhaseKeeps(s, inputs);
    }
  }

  /** main_task's state: its locals round and ql_status, the static count,
      and the shared QuarkLink context. */
  class App {
    var round: uint32
    var qlStatus: ReturnCode
    var count: int32
    const quarklink: Context
    const nvm: Nvm

    ghost predicate Valid()
      reads this, quarklink, nvm
    {
      quarklink.Valid() && nvm.Valid()
    }

    function Snapshot(): State
      reads this, quarklink, nvm
    {
      State(round, qlStatus, count, quarklink.Value(), nvm.Value())
    }

    constructor (quarklink: Context, nvm: Nvm)
      requires quarklink.Valid() && nvm.Valid()
      ensures Valid() && this.quarklink == quarklink && this.nvm == nvm
      ensures Snapshot() == State(0, Error, 0, quarklink.Value(), nvm.Value())
    {
      this.quarklink := quarklink;
      this.nvm := nvm;
      round, qlStatus, count := 0, Error, 0;
    }

    /** databaseDirectPost: configures the request from the context, writes
        the body into its buffer and sends it; changes nothing of the task's
        state. */
    method Post(outcome: HttpOutcome) returns (err: int, request: Request)
      requires Valid()
      ensures err == PostResult(outcome)
      ensures request == RequestOf(quarklink.Value(), count)
    {
      var buffer := new char[BODY_BUFFER_SIZE];
      var v := quarklink.Value();
      BodyFits(v, count);
      WriteCString(buffer, Body(v, count));
      var body := CString(buffer[..]);
      request := Request(v.iotHubEndpoint, v.iotHubPort, v.uri, v.iotHubRootCert, v.token, body);
      match outcome {
        case Responded(status) =>
          err := if status == HTTP_UNAUTHORIZED then HTTP_UNAUTHORIZED else 0;
        case TransportFailed =>
          err := Value(Error);
      }
    }

    method EnrolAndPersist(answer: EnrolAnswer, persistOk: bool)
      requires Valid() && answer.Honest()
      modifies this`qlStatus, quarklink, nvm
      ensures Valid()
      ensures Snapshot() == AfterEnrol(old(Snapshot()), answer, persistOk)
    {
      var ret := quarklink.Enrol(answer);
      if ret == Success {
        var _ := quarklink.PersistEnrolmentContext(nvm, persistOk);
        qlStatus := StatusEnrolled;
      }
    }

    /** The status check, the enrol and the firmware update of a pass. */
    method CheckStatus(inputs: Inputs) returns (trace: Trace)
      requires Valid() && inputs.Honest()
      modifies this`qlStatus, quarklink, nvm
      ensures Valid()
      ensures Pass(Snapshot(), trace) == StatusPhase(old(Snapshot()), inputs)
    {
      trace := Quiet.(statusChecked := true);
      qlStatus := inputs.status;
      if !IsStatusCode(qlStatus) {
        return trace.(ending := Continued);
      }
      if qlStatus == StatusEnrolled && quarklink.iotHubEndpoint == "" {
        qlStatus := StatusNotEnrolled;
      }
      if NeedsEnrolment(qlStatus) {
        trace := trace.(enrolAttempted := true);
        EnrolAndPersist(inputs.enrol, inputs.persistOk);
      }
      if qlStatus == StatusFwUpdateRequired {
        trace := trace.(firmwareRequested := true);
        if inputs.firmware == FwUpdateUpdated {
          return trace.(ending := Restarted);
        }
      }
    }

    method Forget(eraseOk: bool)
      requires Valid()
      modifies this`round, this`qlStatus, quarklink`deviceCert, quarklink`token, nvm
      ensures Valid()
      ensures Snapshot() == Forgotten(old(Snapshot()), eraseOk)
    {
      quarklink.deviceCert := "";
      quarklink.token := "";
      var _ := quarklink.DeleteEnrolmentContext(nvm, eraseOk);
      round := 0;
      qlStatus := Error;
    }

    /** The publishing part of a pass. */
    method Publish(inputs: Inputs) returns (posted: Option<Request>, reEnrolled: bool)
      requires Valid() && inputs.Honest()
      modifies this, quarklink, nvm
      ensures Valid()
      ensures (Snapshot(), posted, reEnrolled) == PublishPhase(old(Snapshot()), inputs)
    {
      posted, reEnrolled := None, false;
      if round % PUBLISH_INTERVAL == 0 && qlStatus == StatusEnrolled {
        if quarklink.token != "" {
          var ret, request := Post(inputs.post);
          posted := Some(request);
          if ret == 0 {
            count := Increment(count);
            round := Next(round);
          } else {
            Forget(inputs.eraseOk);
            reEnrolled := true;
            var _ := quarklink.Enrol(inputs.reEnrol);
            var _ := quarklink.PersistEnrolmentContext(nvm, inputs.rePersistOk);
          }
        } else {
          Forget(inputs.eraseOk);
        }
      }
    }

    /** One pass of main_task's `while (1)` loop. */
    method Step(inputs: Inputs) returns (trace: Trace)
      requires Valid() && inputs.Honest()
      modifies this, quarklink, nvm
      ensures Valid()
      ensures Pass(Snapshot(), trace) == Tick(old(Snapshot()), inputs)
    {
      trace := Quiet;
      if round % STATUS_CHECK_INTERVAL == 0 {
        trace := CheckStatus(inputs);
        if trace.ending != Completed {
          return;
        }
      }
      var posted, reEnrolled := Publish(inputs);
      trace := trace.(posted := posted, reEnrolAttempted := reEnrolled);
      round := Next(round);
    }
  }
}
