/**
 * The MQTT getting-started application: one task that, tick by tick, asks
 * QuarkLink for the device's status, enrols or updates the firmware when
 * told to, starts an MQTT client once enrolled, and publishes.
 *
 * Every call into the QuarkLink library, the MQTT client or the system is
 * answered by an `Inputs` value; a tick is one pass of the task's loop.
 */
module GettingStarted {
  import opened Wrappers
  import opened Codes
  import opened CStrings
  import opened QuarkLink
  import opened Schedule

  /** mqttTopic's array: room for "aws/topic/", a device ID and the NUL. */
  const TOPIC_BUFFER_SIZE := MAX_DEVICE_ID_LENGTH + 10
  const INITIAL_TOPIC := "aws/topic"
  const TOPIC_PREFIX := "aws/topic/"
  /** The retry budget of the MQTT start-up loop. */
  const MQTT_RETRIES := 10

  /** sprintf(mqttTopic, "aws/topic/%s", deviceID) */
  function Topic(deviceID: string): string {
    TOPIC_PREFIX + deviceID
  }

  /** The topic and its terminator fit the buffer exactly when the device ID
      has at most 64 characters, which a well-formed context guarantees. */
  lemma TopicFits(v: ContextValue)
    ensures |Topic(v.deviceID)| < TOPIC_BUFFER_SIZE <==> |v.deviceID| <= DEVICE_ID_CHARS
    ensures v.WellFormed() ==> Fits(Topic(v.deviceID), TOPIC_BUFFER_SIZE)
  {
  }

  /** The client configuration mqtt_init builds from the context. */
  datatype MqttConfig = MqttConfig(hostname: string, port: uint16, serverCert: string,
                                   clientId: string, clientCert: string)

  function ConfigOf(v: ContextValue): MqttConfig {
    MqttConfig(v.iotHubEndpoint, v.iotHubPort, v.iotHubRootCert, v.deviceID, v.deviceCert)
  }

  /** The `esp_mqtt_client_handle_t`: NULL, or a client built from a config. */
  datatype Client = NoClient | Client(config: MqttConfig)

  /** How the MQTT library answers one mqtt_init that gets past its guard:
      whether esp_mqtt_client_init returns a client, and whether
      esp_mqtt_client_start then succeeds. */
  datatype InitAttempt = InitAttempt(created: bool, started: bool)

  /** An attempt starts the client when the device key is there and both
      library calls succeed. */
  predicate Starts(deviceKey: string, a: InitAttempt) {
    deviceKey != "" && a.created && a.started
  }

  predicate SomeStart(deviceKey: string, attempts: seq<InitAttempt>) {
    exists j :: 0 <= j < |attempts| && Starts(deviceKey, attempts[j])
  }

  /** The number of attempts that fail before the first that starts. */
  function Failures(deviceKey: string, attempts: seq<InitAttempt>): (k: nat)
    requires SomeStart(deviceKey, attempts)
    ensures k < |attempts| && Starts(deviceKey, attempts[k])
    ensures forall j :: 0 <= j < k ==> !Starts(deviceKey, attempts[j])
  {
    if Starts(deviceKey, attempts[0]) then 0
    else
      assert SomeStart(deviceKey, attempts[1..]) by {
        var j :| 0 <= j < |attempts| && Starts(deviceKey, attempts[j]);
        assert attempts[1..][j - 1] == attempts[j];
      }
      1 + Failures(deviceKey, attempts[1..])
  }

  /** What the task keeps between ticks, with the context and storage. */
  datatype AppState = AppState(round: uint32, qlStatus: ReturnCode, client: Client, isRunning: bool,
                               topic: string, ctx: ContextValue, stored: Stored)
  {
    predicate WellFormed() {
      ctx.WellFormed() && stored.WellFormed()
    }
  }

  /** The answers to everything one tick may ask: quarklink_status,
      quarklink_enrol, the NVM write of persistEnrolmentContext,
      quarklink_firmwareUpdate, and each mqtt_init attempt in turn. */
  datatype Inputs = Inputs(status: ReturnCode, enrol: EnrolAnswer, persistOk: bool,
                           firmware: ReturnCode, attempts: seq<InitAttempt>)

  datatype Publication = Publication(client: Client, topic: string, data: string)

  /** How a pass of the loop ended: by `continue` (no delay, no round++), by
      esp_restart, or by reaching the end of the loop body. */
  datatype Ending = Continued | Restarted | Completed

  /** What a tick did besides changing the state. */
  datatype Trace = Trace(statusChecked: bool, enrolAttempted: bool, firmwareRequested: bool,
                         mqttInitCalls: nat, retryWaits: nat, published: Option<Publication>,
                         ending: Ending)

  datatype Pass = Pass(state: AppState, trace: Trace)

  predicate NeedsEnrol(status: ReturnCode) {
    status == StatusNotEnrolled || status == StatusCertificateExpired || status == StatusRevoked
  }

  /** The MQTT start-up loop `while (mqtt_init(..) != 0 || retries-- > 0)`:
      the state after it, and how many times mqtt_init ran. */
  predicate RetryEnds(s: AppState, deviceKey: string, attempts: seq<InitAttempt>) {
    s.isRunning || SomeStart(deviceKey, attempts)
  }

  function RetryOutcome(s: AppState, deviceKey: string, attempts: seq<InitAttempt>): (AppState, nat)
    requires RetryEnds(s, deviceKey, attempts)
  {
    if s.isRunning then (s, MQTT_RETRIES + 1)
    else (s.(isRunning := true, client := Client(ConfigOf(s.ctx)), topic := Topic(s.ctx.deviceID)),
          Failures(deviceKey, attempts) + MQTT_RETRIES + 1)
  }

  const Quiet := Trace(false, false, false, 0, 0, None, Completed)

  /** The end of the loop body: publish on every 5th round, then round++. */
  function Finish(s: AppState, t: Trace): Pass {
    var published := if PublishTick(s.round) then Some(Publication(s.client, s.topic, "data")) else None;
    Pass(s.(round := Next(s.round)), t.(published := published, ending := Completed))
  }

  predicate CanStep(s: AppState, deviceKey: string, inputs: Inputs) {
    s.WellFormed() && inputs.enrol.Honest() &&
    (StatusTick(s.round) && EffectiveStatus(inputs.status, s.ctx) == StatusEnrolled ==>
       RetryEnds(s, deviceKey, inputs.attempts))
  }

  /** The enrol a NOT_ENROLLED, CERTIFICATE_EXPIRED or REVOKED status leads
      to: success persists the enrolment region, the two device answers
      carry on, anything else starts the pass over. */
  function EnrolBranch(s: AppState, t: Trace, inputs: Inputs): Pass
    requires s.WellFormed() && inputs.enrol.Honest()
  {
    var t1 := t.(enrolAttempted := true);
    if inputs.enrol.code == Success then
      var ctx := EnrolOutcome(s.ctx, inputs.enrol);
      Pass(s.(ctx := ctx, stored := StoreEnrolment(ctx, s.stored, inputs.persistOk).0), t1)
    else if inputs.enrol.code == DeviceDoesNotExist || inputs.enrol.code == DeviceRevoked then Pass(s, t1)
    else Pass(s, t1.(ending := Continued))
  }

  /** The firmware update FWUPDATE_REQUIRED leads to. */
  function FirmwareBranch(s: AppState, t: Trace, firmware: ReturnCode): Pass {
    var t1 := t.(firmwareRequested := true);
    if firmware == FwUpdateUpdated then Pass(s, t1.(ending := Restarted))
    else if firmware in {FwUpdateNoUpdate, FwUpdateWrongSignature, FwUpdateMissingSignature} then Pass(s, t1)
    else Pass(s, t1.(ending := Continued))
  }

  /** The status check of a pass, with the enrol, the firmware update or
      the MQTT start-up it leads to; `ending` says whether the pass goes on
      to publish (Completed), starts over (Continued) or restarts. */
  function StatusPhase(s: AppState, deviceKey: string, inputs: Inputs): Pass
    requires CanStep(s, deviceKey, inputs) && StatusTick(s.round)
  {
    var status := EffectiveStatus(inputs.status, s.ctx);
    var s1 := s.(qlStatus := status);
    var checked := Quiet.(statusChecked := true);
    if !IsStatusCode(inputs.status) then Pass(s1, checked.(ending := Continued))
    else if NeedsEnrol(status) then EnrolBranch(s1, checked, inputs)
    else if status == StatusFwUpdateRequired then FirmwareBranch(s1, checked, inputs.firmware)
    else
      var (s2, calls) := RetryOutcome(s1, deviceKey, inputs.attempts);
      Pass(s2, checked.(mqttInitCalls := calls, retryWaits := calls - 1))
  }

  /** One pass of getting_started_task's loop. */
  function Tick(s: AppState, deviceKey: string, inputs: Inputs): Pass
    requires CanStep(s, deviceKey, inputs)
  {
    if !StatusTick(s.round) then Finish(s, Quiet)
    else
      var c := StatusPhase(s, deviceKey, inputs);
      if c.trace.ending == Completed then Finish(c.state, c.trace) else c
  }

  // ---- what a tick guarantees -----------------------------------------

  /** A status check runs exactly on rounds that are multiples of 20; a
      publish is attempted on every multiple of 5 that the pass reaches,
      whatever the status, on the client and topic as they then are. */
  lemma {:induction false} Cadence(s: AppState, deviceKey: string, inputs: Inputs)
    requires CanStep(s, deviceKey, inputs)
    ensures var t := Tick(s, deviceKey, inputs);
      (t.trace.statusChecked <==> StatusTick(s.round)) &&
      (t.trace.published.Some? <==> PublishTick(s.round) && t.trace.ending == Completed) &&
      (t.trace.published.Some? ==>
         t.trace.published.value == Publication(t.state.client, t.state.topic, "data")) &&
      (!StatusTick(s.round) ==> t.trace.ending == Completed && t.state == s.(round := Next(s.round)))
  {
    if StatusTick(s.round) {
      StatusPhaseFacts(s, deviceKey, inputs);
    }
  }

  /** `continue` leaves round as it was, so the next pass checks the status
      again at once; a completed pass advances round by one; a restart ends
      the task.  Continue happens exactly on an unrecognised status, an
      enrol error other than the two device answers, and a firmware error. */
  lemma {:induction false} ContinueKeepsRound(s: AppState, deviceKey: string, inputs: Inputs)
    requires CanStep(s, deviceKey, inputs)
    ensures var t := Tick(s, deviceKey, inputs);
      var status := EffectiveStatus(inputs.status, s.ctx);
      (t.trace.ending == Continued ==> t.state.round == s.round && StatusTick(t.state.round)) &&
      (t.trace.ending == Completed ==> t.state.round == Next(s.round)) &&
      (t.trace.ending == Continued <==>
         StatusTick(s.round) &&
         (!IsStatusCode(inputs.status) ||
          (NeedsEnrol(status) && inputs.enrol.code !in {Success, DeviceDoesNotExist, DeviceRevoked}) ||
          (status == StatusFwUpdateRequired &&
           inputs.firmware !in {FwUpdateUpdated, FwUpdateNoUpdate, FwUpdateWrongSignature, FwUpdateMissingSignature})))
  {
  }

  /** ENROLLED with no IoT Hub endpoint in the context is handled as
      NOT_ENROLLED: the task enrols and does not start MQTT. */
  lemma {:induction false} DowngradeForcesEnrol(s: AppState, deviceKey: string, inputs: Inputs)
    requires CanStep(s, deviceKey, inputs)
    requires StatusTick(s.round) && inputs.status == StatusEnrolled && s.ctx.iotHubEndpoint == ""
    ensures var t := Tick(s, deviceKey, inputs);
      t.trace.enrolAttempted && t.trace.mqttInitCalls == 0 && t.state.qlStatus == StatusNotEnrolled &&
      t.state.isRunning == s.isRunning && t.state.client == s.client
  {
  }

  /** Enrolment is attempted exactly when the effective status is
      NOT_ENROLLED, CERTIFICATE_EXPIRED or REVOKED.  A successful enrol fills
      the context, persists the enrolment region when storage works, and
      leaves ql_status as it was, so MQTT is not started in that pass. */
  lemma {:induction false} EnrolRule(s: AppState, deviceKey: string, inputs: Inputs)
    requires CanStep(s, deviceKey, inputs)
    ensures var t := Tick(s, deviceKey, inputs);
      var status := EffectiveStatus(inputs.status, s.ctx);
      (t.trace.enrolAttempted <==> StatusTick(s.round) && IsStatusCode(inputs.status) && NeedsEnrol(status)) &&
      (t.trace.enrolAttempted && inputs.enrol.code == Success ==>
         t.state.ctx == AfterEnrolment(s.ctx, inputs.enrol.data) &&
         (s.ctx.Initialised() && inputs.persistOk ==>
            t.state.stored.enrolment == Some(EnrolmentOf(t.state.ctx))) &&
         t.state.qlStatus == status && t.state.qlStatus != StatusEnrolled &&
         t.trace.mqttInitCalls == 0 && t.state.isRunning == s.isRunning) &&
      (t.trace.enrolAttempted && inputs.enrol.code != Success ==>
         t.state.ctx == s.ctx && t.state.stored == s.stored)
  {
  }

  /** A firmware update is requested only on FWUPDATE_REQUIRED; UPDATED
      restarts the device; the signature failures and "no update" carry on
      without a restart. */
  lemma {:induction false} FirmwareRule(s: AppState, deviceKey: string, inputs: Inputs)
    requires CanStep(s, deviceKey, inputs)
    ensures var t := Tick(s, deviceKey, inputs);
      (t.trace.firmwareRequested <==> StatusTick(s.round) && inputs.status == StatusFwUpdateRequired) &&
      (t.trace.ending == Restarted <==> t.trace.firmwareRequested && inputs.firmware == FwUpdateUpdated) &&
      (t.trace.firmwareRequested &&
       inputs.firmware in {FwUpdateNoUpdate, FwUpdateWrongSignature, FwUpdateMissingSignature} ==>
         t.trace.ending == Completed && t.state.ctx == s.ctx)
  {
  }

  /** On an effective ENROLLED the MQTT loop runs until mqtt_init succeeds and
      then ten times more: mqtt_init runs failures + 11 times, the loop body
      waits failures + 10 times, and the client ends up started with the
      context's IoT Hub settings.  A client already running is left alone. */
  lemma {:induction false} MqttStartRule(s: AppState, deviceKey: string, inputs: Inputs)
    requires CanStep(s, deviceKey, inputs)
    requires StatusTick(s.round) && EffectiveStatus(inputs.status, s.ctx) == StatusEnrolled
    ensures var t := Tick(s, deviceKey, inputs);
      var failures := if s.isRunning then 0 else Failures(deviceKey, inputs.attempts);
      t.state.isRunning && t.trace.ending == Completed &&
      t.trace.retryWaits == failures + MQTT_RETRIES &&
      t.trace.mqttInitCalls == failures + MQTT_RETRIES + 1 &&
      (!s.isRunning ==> t.state.client == Client(ConfigOf(s.ctx)) && t.state.topic == Topic(s.ctx.deviceID)) &&
      (s.isRunning ==> t.state.client == s.client && t.state.topic == s.topic) &&
      t.trace.published == Some(Publication(t.state.client, t.state.topic, "data"))
  {
  }

  /** Same bootstrap details, device ID and stored bootstrap region. */
  predicate Keeps(s: AppState, t: AppState) {
    BootstrapOf(t.ctx) == BootstrapOf(s.ctx) && t.ctx.deviceID == s.ctx.deviceID &&
    t.stored.credentials == s.stored.credentials && t.WellFormed()
  }

  /** The status phase checks the status, publishes nothing, leaves round
      alone and keeps the bootstrap details. */
  lemma {:induction false} StatusPhaseFacts(s: AppState, deviceKey: string, inputs: Inputs)
    requires CanStep(s, deviceKey, inputs) && StatusTick(s.round)
    ensures var c := StatusPhase(s, deviceKey, inputs);
      c.trace.statusChecked && c.trace.published == None && c.state.round == s.round && Keeps(s, c.state)
  {
  }

  /** A tick never touches the QuarkLink details, the device ID or the
      stored QuarkLink-details region. */
  lemma {:induction false} BootstrapUntouched(s: AppState, deviceKey: string, inputs: Inputs)
    requires CanStep(s, deviceKey, inputs)
    ensures Keeps(s, Tick(s, deviceKey, inputs).state)
  {
    if StatusTick(s.round) {
      StatusPhaseFacts(s, deviceKey, inputs);
    }
  }

  // ---- the task ---------------------------------------------------------

  /** The task's state: its locals (round, ql_status, mqtt_client), the
      statics of mqtt_init (is_running, deviceKey), and the globals it
      shares (the QuarkLink context, mqttTopic). */
  class App {
    var round: uint32
    var qlStatus: ReturnCode
    var client: Client
    var isRunning: bool
    const quarklink: Context
    const nvm: Nvm
    const mqttTopic: array<char>
    const deviceKey: array<char>
    /** The device key the QuarkLink library holds, empty if none. */
    const heldKey: string

    ghost predicate Valid()
      reads this, quarklink, nvm
    {
      quarklink.Valid() && nvm.Valid() &&
      mqttTopic.Length == TOPIC_BUFFER_SIZE && deviceKey.Length == MAX_KEY_LENGTH &&
      mqttTopic != deviceKey && Fits(heldKey, MAX_KEY_LENGTH)
    }

    function State(): AppState
      reads this, quarklink, nvm, mqttTopic
    {
      AppState(round, qlStatus, client, isRunning, CString(mqttTopic[..]), quarklink.Value(), nvm.Value())
    }

    /** The task as it starts: round 0, ql_status ERROR, no client, and
        mqttTopic holding its initial "aws/topic". */
    constructor (quarklink: Context, nvm: Nvm, heldKey: string)
      requires quarklink.Valid() && nvm.Valid() && Fits(heldKey, MAX_KEY_LENGTH)
      ensures Valid() && fresh(mqttTopic) && fresh(deviceKey)
      ensures this.quarklink == quarklink && this.nvm == nvm && this.heldKey == heldKey
      ensures State() == AppState(0, Error, NoClient, false, INITIAL_TOPIC, quarklink.Value(), nvm.Value())
    {
      this.quarklink := quarklink;
      this.nvm := nvm;
      this.heldKey := heldKey;
      round, qlStatus, client, isRunning := 0, Error, NoClient, false;
      mqttTopic := new char[TOPIC_BUFFER_SIZE](i => if 0 <= i < |INITIAL_TOPIC| then INITIAL_TOPIC[i] else NUL);
      deviceKey := new char[MAX_KEY_LENGTH](_ => NUL);
      new;
      CStringOfTerminated(mqttTopic[..], INITIAL_TOPIC);
    }

    /** mqtt_init: does nothing once the client runs; otherwise fetches the
        device key, creates the client from the context and starts it.
        Only a successful start sets is_running and writes the topic. */
    method MqttInit(attempt: InitAttempt) returns (ret: int)
      requires Valid()
      modifies this`client, this`isRunning, mqttTopic, deviceKey
      ensures Valid()
      ensures old(isRunning) ==> ret == 0 && State() == old(State())
      ensures !old(isRunning) ==>
        (ret == 0 <==> Starts(heldKey, attempt)) &&
        State() == old(State()).(
          isRunning := Starts(heldKey, attempt),
          client := if heldKey == "" then old(client)
                    else if !attempt.created then NoClient
                    else Client(ConfigOf(quarklink.Value())),
          topic := if Starts(heldKey, attempt) then Topic(quarklink.deviceID) else old(State().topic))
    {
      if isRunning {
        return 0;
      }
      var r := GetKey(heldKey, deviceKey);
      if r != Success {
        return -1;
      }
      if !attempt.created {
        client := NoClient;
        return -1;
      }
      client := Client(ConfigOf(quarklink.Value()));
      if attempt.started {
        isRunning := true;
        TopicFits(quarklink.Value());
        WriteCString(mqttTopic, Topic(quarklink.deviceID));
        ret := 0;
      } else {
        isRunning := false;
        ret := -1;
      }
    }

    /** The retry loop: it calls mqtt_init and waits a second for as long as
        the call fails or the ten-step counter has not run out.  A failed call
        does not decrement the counter, so the loop ends only after a start,
        and then waits ten more times. */
    method RetryMqttInit(attempts: seq<InitAttempt>) returns (calls: nat, waits: nat)
      requires Valid() && RetryEnds(State(), heldKey, attempts)
      modifies this`client, this`isRunning, mqttTopic, deviceKey
      ensures Valid()
      ensures (State(), calls) == RetryOutcome(old(State()), heldKey, attempts)
      ensures waits == calls - 1
    {
      var retries := MQTT_RETRIES;
      var i := 0;
      calls, waits := 0, 0;
      ghost var s0 := State();
      ghost var failures := if isRunning then 0 else Failures(heldKey, attempts);
      while true
        invariant Valid()
        invariant quarklink.Value() == s0.ctx && nvm.Value() == s0.stored
        invariant round == s0.round && qlStatus == s0.qlStatus
        invariant 0 <= retries <= MQTT_RETRIES
        invariant !isRunning ==> !s0.isRunning && i <= failures && calls == i && waits == i &&
                                 retries == MQTT_RETRIES
        invariant isRunning ==> State() == RetryOutcome(s0, heldKey, attempts).0 &&
                                calls == failures + (MQTT_RETRIES - retries) && waits == calls
        decreases if isRunning then 0 else |attempts| + 1 - i, retries
      {
        var attempt := if i < |attempts| then attempts[i] else InitAttempt(false, false);
        var wasRunning := isRunning;
        var ret := MqttInit(attempt);
        calls := calls + 1;
        if !wasRunning {
          i := i + 1;
        }
        if ret != 0 {
          waits := waits + 1;
        } else {
          if retries > 0 {
            retries := retries - 1;
            waits := waits + 1;
          } else {
            break;
          }
        }
      }
    }

    /** quarklink_enrol, and on success quarklink_persistEnrolmentContext. */
    method Enrol(inputs: Inputs, trace: Trace) returns (t: Trace)
      requires Valid() && State().WellFormed() && inputs.enrol.Honest()
      modifies quarklink, nvm
      ensures Valid()
      ensures Pass(State(), t) == EnrolBranch(old(State()), trace, inputs)
    {
      t := trace.(enrolAttempted := true);
      var ret := quarklink.Enrol(inputs.enrol);
      if ret == Success {
        var _ := quarklink.PersistEnrolmentContext(nvm, inputs.persistOk);
      } else if ret == DeviceDoesNotExist || ret == DeviceRevoked {
      } else {
        t := t.(ending := Continued);
      }
    }

    /** The status check of a pass and what it leads to. */
    method CheckStatus(inputs: Inputs) returns (trace: Trace)
      requires Valid() && CanStep(State(), heldKey, inputs) && StatusTick(round)
      modifies this`qlStatus, this`client, this`isRunning, quarklink, nvm, mqttTopic, deviceKey
      ensures Valid()
      ensures Pass(State(), trace) == StatusPhase(old(State()), heldKey, inputs)
    {
      trace := Quiet.(statusChecked := true);
      qlStatus := inputs.status;
      if qlStatus == StatusEnrolled {
        if quarklink.iotHubEndpoint == "" {
          qlStatus := StatusNotEnrolled;
        }
      } else if !IsStatusCode(qlStatus) {
        return trace.(ending := Continued);
      }
      if NeedsEnrol(qlStatus) {
        trace := Enrol(inputs, trace);
      } else if qlStatus == StatusFwUpdateRequired {
        trace := FirmwareBranch(State(), trace, inputs.firmware).trace;
      } else {
        var calls, waits := RetryMqttInit(inputs.attempts);
        trace := trace.(mqttInitCalls := calls, retryWaits := waits);
      }
    }

    /** One pass of getting_started_task's `while (1)` loop. */
    method Step(inputs: Inputs) returns (trace: Trace)
      requires Valid() && CanStep(State(), heldKey, inputs)
      modifies this, quarklink, nvm, mqttTopic, deviceKey
      ensures Valid()
      ensures Pass(State(), trace) == Tick(old(State()), heldKey, inputs)
    {
      trace := Quiet;
      if round % STATUS_CHECK_INTERVAL == 0 {
        trace := CheckStatus(inputs);
        if trace.ending != Completed {
          return;
        }
      }
      if round % PUBLISH_INTERVAL == 0 {
        trace := trace.(published := Some(Publication(client, CString(mqttTopic[..]), "data")));
      } else {
        trace := trace.(published := None);
      }
      round := Next(round);
      trace := trace.(ending := Completed);
    }
  }
}
