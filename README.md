# QuarkLink device client, modelled in Dafny

This project models the device side of QuarkLink on an ESP32: the
QuarkLink client API (`quarklink.h`) and the two example applications built
on it.

- **QuarkLink API** (`quarklink.dfy`, `codes.dfy`). The module holds the
  `quarklink_return_t` codes and the `quarklink_context_t` record. The
  context is a class with one field per struct member. Each array field
  holds a C string bounded by its array. The struct has three pointer fields.
  The model gives `tempCert` a 2048-byte bound like the device certificate's,
  and leaves `scopeID` and `fwUpdateTopic` unbounded C strings. The module also models the two regions of
  non-volatile storage (the QuarkLink details and the enrolment details), and
  the header's contracts for init, enrol, the getters and `getURL`, the
  setters, persist / load / delete, and the `isDevice*` status predicates.
- **MQTT getting-started application** (`getting_started.dfy`). One pass of
  `getting_started_task`'s loop is a method of the `App` class. That method is
  proved equal to a pure `Tick` function over the task's state:
  - `round`, `ql_status` and the MQTT client;
  - `mqtt_init`'s static `is_running` flag and the global `mqttTopic` buffer;
  - the context and storage.
  `mqtt_init` and its retry loop are methods proved against their own
  specifications.
- **Database Direct application** (`database_direct.dfy`). One pass of
  `main_task` is proved equal to a pure `Tick` function over `round`,
  `ql_status`, `count`, the context and storage. This file also covers:
  - `isDatabaseDirect`;
  - `databaseDirectPost`: the JSON body it writes and how it maps the HTTP
    result to a return code;
  - `http_event_handler` writing the response into `rxBuffer`.
- Shared pieces:
  - `cstrings.dfy`: NUL-terminated buffers and a `strcpy`-style write.
  - `decimal.dfy`: the `%u` / `%d` text of integers, and reading it back.
  - `schedule.dfy`: the `uint32_t round` counter, its wrap-around, and the
    every-20 / every-5 cadence.

The library has no bodies in this repository. Each call into it, or into the
MQTT/HTTP clients, is modelled as an outcome value passed in as a parameter:
- the status answer;
- an `EnrolAnswer`, which carries the data a successful enrol writes;
- the firmware-update result;
- whether a storage write works;
- whether each MQTT client init/start works;
- how each HTTP request ends.

Each application tick takes all of these as one `Inputs` value.

Some behaviour of the code that the lemmas make explicit:
- In the MQTT application, a successful enrol does not set `ql_status` to
  ENROLLED, so MQTT starts at the next status round at the earliest.
- The retry loop `while (mqtt_init(..) != 0 || retries-- > 0)` exits only
  after `mqtt_init` succeeds. Failed calls do not use up `retries`, so
  `mqtt_init` runs failures + 11 times and the loop waits failures + 10 times.
- In the Database Direct application, an accepted POST increments `round` one
  extra time. The value this skips is never a publish or status round,
  except once: 2^32 - 1 is a multiple of 5, and its successor 0 is a status
  round that gets skipped.
- A refused POST persists the enrolment region even when the second enrol
  fails. The stored record then has an empty device certificate next to the
  old IoT Hub endpoint.
- The `getURL` note asks for a buffer of `QUARKLINK_MAX_ENDPOINT_LENGTH` bytes.
  That is not always enough: a 127-character endpoint with port 6000 needs 141 bytes.

## Model

| member | source | states |
|---|---|---|
| Codes.ValueRoundTrip | include/quarklink.h:42-68 | every return code has its own integer, and reading that integer back gives the same code |
| Codes.FromValueRoundTrip | include/quarklink.h:42-68 | an integer that names a code is the integer of that code |
| Codes.ValueInjective | include/quarklink.h:42-68 | two different codes never share an integer |
| Codes.SignBands | include/quarklink.h:36-41 | below 0 exactly for the errors, 0 exactly for SUCCESS, above 0 exactly for the status, firmware, device and context-load outcomes |
| Codes.DecadeBands | include/quarklink.h:52-67 | the status codes are 10-14, the firmware codes 20-25, the device codes 30-31 and the context-load codes 40-42 |
| Codes.BandsDisjoint | include/quarklink.h:36-68 | no code belongs to two bands |
| CStrings.CString | include/quarklink.h:80-117 | a C string read from a buffer has no NUL, is a prefix of the buffer, and is followed by the NUL when it ends before the buffer |
| CStrings.CStringOfTerminated | include/quarklink.h:80-117 | a buffer holding a NUL-free text followed by NUL reads back as exactly that text |
| CStrings.WriteCString | main/main.c:193-197 | writing a string and its terminator leaves the bytes after it alone and reads back as that string |
| Decimal.ParseText | include/quarklink.h:277-278 | the decimal text of a number reads back as the number |
| Decimal.TextLength | include/quarklink.h:277-278 | the decimal text of n has at most k digits exactly when n < 10^k |
| QuarkLink.AfterEnrolment | include/quarklink.h:75-79 | after enrol the context stays within its arrays, the bootstrap fields and device ID are unchanged, and deviceCert, the IoT Hub cert and endpoint and a nonzero IoT Hub port are set |
| QuarkLink.Initialise | include/quarklink.h:120-136 | init erases the context; it succeeds exactly when endpoint and root cert fit, and then sets only rootCert, endpoint, port and the 64-character device ID; on failure the context stays erased |
| QuarkLink.Context.Init | include/quarklink.h:120-136 | the context and the answer are those of the init specification |
| QuarkLink.Context.Enrol | include/quarklink.h:138-149 | on SUCCESS the enrolment data is written into the context; on any other answer the context is unchanged |
| QuarkLink.FieldOf | include/quarklink.h:80-117 | every field a getter returns fits the getter's buffer size |
| QuarkLink.CopyOut | include/quarklink.h:184-194 | a buffer shorter than the field's array is INVALID_PARAMETER; an unset field is VALUE_NOT_AVAILABLE; otherwise the field is copied and SUCCESS; a failed call leaves the buffer alone |
| QuarkLink.Context.GetField | include/quarklink.h:184-323 | getDeviceID, getDeviceCert, getRootCert, getEndpoint, getIoTHubCert, getIoTHubEndpoint and getTempCert succeed exactly when the buffer has the field's array size and the field is set; the buffer then holds the field |
| QuarkLink.Context.GetPort | include/quarklink.h:233-241 | getPort and getIoTHubPort give the port when it is nonzero and VALUE_NOT_AVAILABLE otherwise |
| QuarkLink.GetKey | include/quarklink.h:289-311 | getEnrolmentKey and getDeviceKey copy the held key into a buffer of at least 256 bytes; they answer INVALID_PARAMETER for a shorter buffer and VALUE_NOT_AVAILABLE when no key is held |
| QuarkLink.Context.GetUrl | include/quarklink.h:277-287 | on SUCCESS the buffer holds exactly 'https://endpoint:port' with the port's shortest decimal digits, which parses back to the context's endpoint and port; a short buffer is INVALID_PARAMETER, a missing endpoint or port is VALUE_NOT_AVAILABLE |
| QuarkLink.UrlRoundTrip | include/quarklink.h:277-278 | 'https://endpoint:port' parses back to the endpoint and port |
| QuarkLink.SplitLastAppend | include/quarklink.h:277-278 | splitting at the last ':' recovers the endpoint and the port digits |
| QuarkLink.UrlLength | include/quarklink.h:277-279 | the URL is 9 characters plus the endpoint plus 1 to 5 port digits |
| QuarkLink.UrlCanOutgrowDocumentedBuffer | include/quarklink.h:279 | a 127-character endpoint with port 6000 needs 141 bytes, more than the 128 the note asks for |
| QuarkLink.Context.SetRootCert | include/quarklink.h:325-333 | a root certificate that fits replaces rootCert only; otherwise INVALID_PARAMETER and no change |
| QuarkLink.Context.SetEndpoint | include/quarklink.h:335-344 | an endpoint that fits replaces endpoint and port only; otherwise INVALID_PARAMETER and no change |
| QuarkLink.Context.PersistContext | include/quarklink.h:346-356 | stores rootCert, endpoint and port only; NOT_INITIALISED or NVM_ERROR leave storage as it was |
| QuarkLink.Context.PersistEnrolmentContext | include/quarklink.h:358-369 | stores deviceCert, IoT Hub endpoint, port and cert, scopeID and firmware topic only, with the same errors |
| QuarkLink.PersistsAreSeparate | include/quarklink.h:346-369 | each persist writes only its own region, and a failed persist writes nothing |
| QuarkLink.Context.LoadStoredContext | include/quarklink.h:371-384 | the context after a load and the code are those of the load specification |
| QuarkLink.LoadOutcomes | include/quarklink.h:371-384 | loading answers one of the six documented codes; SUCCESS exactly when both regions are stored, NOTHING_STORED exactly when neither is; it overwrites only the regions it found, and keeps the device ID and the array bounds |
| QuarkLink.PersistLoadRoundTrip | include/quarklink.h:346-384 | what the two persists stored, a later load gives back into any initialised context |
| QuarkLink.Context.DeleteEnrolmentContext | include/quarklink.h:386-394 | removes the enrolment region only, or answers ERROR and changes nothing |
| QuarkLink.Context.DeleteContext | include/quarklink.h:396-404 | removes the QuarkLink-details region only, or answers ERROR and changes nothing |
| QuarkLink.DeletesAreSeparate | include/quarklink.h:386-404 | each delete keeps the other region, and deleting twice is the same as deleting once |
| QuarkLink.IsDeviceEnrolled | include/quarklink.h:406-419 | answers 1 exactly when the last status call reported ENROLLED, 0 otherwise |
| QuarkLink.IsDeviceNotEnrolled | include/quarklink.h:421-434 | answers 1 exactly when the last status call reported NOT_ENROLLED, 0 otherwise |
| QuarkLink.IsDeviceRevoked | include/quarklink.h:436-449 | answers 1 exactly when the last status call reported REVOKED, 0 otherwise |
| QuarkLink.IsDevicePendingRevoke | include/quarklink.h:451-464 | answers 1 exactly when the device is pending a revoke, 0 otherwise; no status code the header defines reports this |
| QuarkLink.IsDeviceCertificateExpired | include/quarklink.h:466-479 | answers 1 exactly when the last status call reported CERTIFICATE_EXPIRED, 0 otherwise |
| QuarkLink.IsDeviceFwUpdateAvailable | include/quarklink.h:481-494 | answers 1 exactly when the last status call reported FWUPDATE_REQUIRED, 0 otherwise |
| QuarkLink.StatusPredicatesExclusive | include/quarklink.h:406-494 | at most one isDevice* predicate answers 1; after a status call that returned a status code, exactly the one that code names does (each of the five named in its own clause, and isDevicePendingRevoke by none); an error answer keeps the previous standing |
| Schedule.Next | main/main.c:392 | `round++` on a uint32_t adds one, wrapping to 0 after 2^32 - 1 |
| Schedule.StatusTickIsPublishTick | main/main.c:27-31 | every status round is also a publish round |
| Schedule.ExtraIncrementSkipsNoTick | src/main.c:351 | an extra increment after a publish round skips a value that is neither a publish nor a status round, except after 2^32 - 1, where it skips 0, a status round |
| Schedule.WrapShortensLastCycle | main/main.c:288 | the last status round before the wrap is 2^32 - 16, so that cycle lasts 16 rounds |
| Schedule.StatusTicksTwentyApart | main/main.c:288 | away from the wrap, status rounds are exactly 20 apart |
| GettingStarted.TopicFits | main/main.c:33-35 | "aws/topic/" + device ID and its NUL fit the 75-byte mqttTopic exactly when the ID has at most 64 characters, which every well-formed context guarantees |
| GettingStarted.Failures | main/main.c:370-376 | the number of failed mqtt_init calls before the first that starts the client: every earlier attempt fails and that one succeeds |
| GettingStarted.App.constructor | main/main.c:276-283 | the task starts at round 0 with ql_status ERROR and no client; is_running starts false (main/main.c:158), and mqttTopic holds "aws/topic" (main/main.c:33-35) |
| GettingStarted.App.MqttInit | main/main.c:156-202 | once running, it returns 0 and changes nothing; otherwise it succeeds exactly when the device key is held and the client is created and started; only success sets is_running and writes the topic; a failed key fetch leaves the client handle alone |
| GettingStarted.App.RetryMqttInit | main/main.c:370-376 | the loop ends with the client running; mqtt_init runs failures + 11 times and the loop body waits one time fewer (just 11 calls when the client already runs) |
| GettingStarted.App.Enrol | main/main.c:318-343 | enrol success writes the context and persists the enrolment region; DEVICE_DOES_NOT_EXIST and DEVICE_REVOKED carry on; any other answer starts the pass over |
| GettingStarted.App.CheckStatus | main/main.c:286-377 | the status check and what follows it match the specification of that phase |
| GettingStarted.App.Step | main/main.c:283-393 | one pass of the loop matches the pure tick specification, in state and in what it did |
| GettingStarted.Cadence | main/main.c:286-392 | the status is checked exactly on multiples of 20; a publish to the current client and topic is attempted on every multiple of 5 that completes, whatever the status; other rounds only advance round |
| GettingStarted.ContinueKeepsRound | main/main.c:313-392 | `continue` happens exactly on an unrecognised status, an enrol error other than the two device answers, or a firmware error, and leaves round unchanged at a status round; a completed pass advances round by one |
| GettingStarted.DowngradeForcesEnrol | main/main.c:290-299 | ENROLLED with no IoT Hub endpoint is handled as NOT_ENROLLED: an enrol is attempted and MQTT is not touched |
| GettingStarted.EnrolRule | main/main.c:318-343 | enrol is attempted exactly for an effective NOT_ENROLLED, CERTIFICATE_EXPIRED or REVOKED; success writes the context and persists it when storage works, but ql_status is not promoted, so MQTT does not start in that pass; failure changes neither context nor storage |
| GettingStarted.FirmwareRule | main/main.c:345-368 | a firmware update is requested exactly on FWUPDATE_REQUIRED; UPDATED restarts the device; NO_UPDATE and the two signature failures carry on without changing the context |
| GettingStarted.MqttStartRule | main/main.c:370-389 | on an effective ENROLLED the client ends up running with the context's IoT Hub settings, after failures + 11 calls and failures + 10 waits, and the pass publishes on the new topic |
| GettingStarted.StatusPhaseFacts | main/main.c:286-377 | the status phase publishes nothing, leaves round alone and keeps the bootstrap details |
| GettingStarted.BootstrapUntouched | main/main.c:283-393 | a pass never changes the QuarkLink details, the device ID or the stored QuarkLink-details region, and keeps the context within its arrays |
| DatabaseDirect.Increment | src/main.c:342-345 | `count++` adds one, wrapping from 2^31 - 1 to -2^31 |
| DatabaseDirect.BodyLength | src/main.c:207-210 | the body is 69 fixed characters plus the device ID, database, data source and count text, and has no NUL exactly when none of those has one |
| DatabaseDirect.CountTextLength | src/main.c:207-210 | "%d" of a 32-bit count is at most 11 characters (10 when not negative) |
| DatabaseDirect.CountTextClean | src/main.c:207-210 | "%d" writes no NUL |
| DatabaseDirect.BodyRecordsCount | src/main.c:207-210 | the count can be read back from the body: the digits before the closing braces parse to its magnitude, and a '-' precedes them exactly when it is negative |
| DatabaseDirect.BodyOverflowsAsWritten | src/main.c:207-210 | a well-formed context with the longest names and count 100000000 gives a 200-character body, which with its NUL does not fit body[200] |
| DatabaseDirect.BodyFits | src/main.c:207-210 | every well-formed context and 32-bit count gives a body that fits a 203-byte buffer with its NUL |
| DatabaseDirect.DatabaseDirectByToken | src/main.c:125-127 | a device is Database Direct by its token alone: a forgotten enrolment is not one, and an enrolment makes it one exactly when it hands out a token |
| DatabaseDirect.PostResult | src/main.c:216-234 | 0 exactly when the request completed with a status other than 401, 401 exactly for 401, QUARKLINK_ERROR exactly for a transport failure |
| DatabaseDirect.App.Post | src/main.c:184-235 | returns the PostResult of the outcome and sends the request of the current context and count: to the IoT Hub endpoint and port at the URI, trusting the IoT Hub root certificate, with the token header and the JSON body; the body is written into the corrected 203-byte buffer, not the 200-byte one of the source (see Findings) |
| DatabaseDirect.MemCopy | src/main.c:99-101 | the data is copied at the offset and every other byte is kept |
| DatabaseDirect.Receiver.Handle | src/main.c:81-123 | non-chunked data is appended at output_len, which advances; chunked data is ignored; ON_FINISH writes the NUL and resets output_len; DISCONNECTED resets it; the answer is always ESP_OK |
| DatabaseDirect.ReceiveAll | src/main.c:96-107 | after non-chunked pieces, output_len has grown by their total length and the buffer holds them in order after the earlier bytes |
| DatabaseDirect.ReceiveResponse | src/main.c:96-113 | a response delivered in pieces and then finished leaves the pieces, in order, as the C string in the buffer, and output_len at 0 |
| DatabaseDirect.DeliverResponse | src/main.c:96-113 | the handler run over a response's pieces and its end leaves exactly the response text, NUL-terminated, in rxBuffer |
| DatabaseDirect.App.EnrolAndPersist | src/main.c:282-308 | enrol success writes the context, persists the enrolment region and sets ql_status to ENROLLED; any other answer changes nothing |
| DatabaseDirect.App.CheckStatus | src/main.c:244-335 | the status check, the enrol and the firmware update match the specification of that phase |
| DatabaseDirect.App.Forget | src/main.c:374-381 | clears deviceCert and token, deletes the stored enrolment, and sets round to 0 and ql_status to ERROR |
| DatabaseDirect.App.Publish | src/main.c:338-382 | the publishing part of a pass matches its specification |
| DatabaseDirect.App.Step | src/main.c:242-386 | one pass of main_task's loop matches the pure tick specification |
| DatabaseDirect.App.constructor | src/main.c:236-241 | the task starts at round 0 and ql_status ERROR, and the static count starts at 0 (src/main.c:36) |
| DatabaseDirect.OnlyBadStatusContinues | src/main.c:246-335 | only an unrecognised status answer makes the pass start over, with round unchanged; enrol and firmware errors carry on; only UPDATED restarts |
| DatabaseDirect.CertificateExpiredIgnored | src/main.c:262-264 | CERTIFICATE_EXPIRED leads to no enrol, no firmware request and no POST, and changes only ql_status and round |
| DatabaseDirect.EnrolPromotesAndPublishes | src/main.c:278-340 | after a successful enrol ql_status is ENROLLED, so the same pass POSTs when the enrolment carries a token, and forgets it otherwise |
| DatabaseDirect.PostRule | src/main.c:338-341 | a POST goes out exactly on a completed publish round of an ENROLLED Database Direct device, and is the request built from the context and count at that point, with a non-empty token |
| DatabaseDirect.EnrolRule | src/main.c:244-308 | an enrol is attempted exactly on a status round whose effective status is NOT_ENROLLED or REVOKED; success writes the enrolment data, sets ql_status to ENROLLED and persists the enrolment region when storage works; failure, or no enrol, leaves context and storage alone |
| DatabaseDirect.AcceptedPost | src/main.c:244-385 | on every publish round that reaches the POST, whether or not it began with a status check, an accepted POST sends the request built from the state after that check, increments count and advances round twice, keeping everything else; the skipped value is not a publish or status round, except at the wrap |
| DatabaseDirect.RefusedPost | src/main.c:244-385 | on every publish round that reaches the POST, whether or not it began with a status check, a refused POST clears deviceCert and token, deletes the stored enrolment, enrols again, persists whatever the context then holds, and ends with round 1 and ql_status ERROR |
| DatabaseDirect.RefusedPostCanStoreEmptyCertificate | src/main.c:244-385 | on any round that reaches a refused POST, when the second enrol fails the persist still stores an enrolment record with an empty certificate and the IoT Hub endpoint the context held before the POST (a failed enrol is taken to leave the context alone, see Left out) |
| DatabaseDirect.NotDatabaseDirectForgets | src/main.c:244-385 | an ENROLLED device without a token (isDatabaseDirect false) forgets its enrolment on its next publish round, whether or not that round began with a status check: no POST, round 1, ql_status ERROR, enrolment region deleted when storage works |
| DatabaseDirect.StatusPhaseKeeps | src/main.c:244-335 | the status phase keeps the bootstrap details, device ID and stored bootstrap region |
| DatabaseDirect.PublishPhaseKeeps | src/main.c:338-382 | the publish phase keeps them too |
| DatabaseDirect.BootstrapUntouched | src/main.c:242-386 | a pass never changes the QuarkLink details, the device ID or the stored QuarkLink-details region, and keeps the context within its arrays |

## Left out

- QuarkLink library internals are not part of this model: the wire protocol, CSR generation and signing, the storage format, OTA download and signature checking. Only the header's stated contracts are modelled. Status, enrol and firmware answers come in as parameters.
- quarklink_status and quarklink_firmwareUpdate are outcome parameters. What they may do to the context beyond their answer is not modelled, because the header does not say.
- QuarkLink.Context.Enrol: the header promises only deviceCert and the IoT Hub cert, endpoint and port after enrol. The other enrolment fields are whatever the answer carries.
- QuarkLink.Context.Enrol: the header says nothing about a failed enrol. The model assumes any answer but SUCCESS leaves the context unchanged (`QuarkLink.EnrolOutcome`). GettingStarted.EnrolRule's "failure changes neither context nor storage" and the IoT Hub endpoint in DatabaseDirect.RefusedPostCanStoreEmptyCertificate rest on this assumption.
- QuarkLink.StandingAfter/StatusPredicatesExclusive: the header only makes the first four predicates exclusive. The model assumes three more things: an error answer keeps the previous standing; FWUPDATE_REQUIRED and CERTIFICATE_EXPIRED are standings of their own, so they make isDeviceEnrolled 0; and all six predicates are exclusive.
- QuarkLink.Context.GetUrl: the header does not say what a URL longer than the caller's buffer gives. The model answers INVALID_PARAMETER and leaves the buffer alone.
- QuarkLink.Context.Init: the header says only "others for error". The model fails only on an endpoint or root certificate too long for its array, answers INVALID_PARAMETER, and leaves the context erased.
- QuarkLink.Context.LoadStoredContext: the header does not say whether the token, URI, database or data source are stored. The model stores only the fields the two persist notes list.
- QuarkLink.Context.GetUrl: like CopyOut, the model checks the buffer size before the missing endpoint or port; the header leaves that order open.
- QuarkLink.Context.SetRootCert/SetEndpoint: the header only lists INVALID_PARAMETER as a possible answer. The model answers it exactly when the new value does not fit its array, and then changes nothing.
- QuarkLink.CopyOut: the header leaves the order of the two checks open. The model reports INVALID_PARAMETER for a short buffer before VALUE_NOT_AVAILABLE for an unset field.
- QuarkLink.Context.GetField: the certificate getters name a `QUARKLINK_MAX_CERTIFICATE_LENGTH` that the header never defines. The model uses the field's own array size. `tempCert` is a pointer with no array, so the model gives it the 2048 bytes of the long certificate arrays.
- QuarkLink.ContextValue.Initialised: the library's own notion of "initialised" cannot be seen. The model takes it to mean that the device ID is set, since init always sets it.
- The device ID and the held keys come from the hardware or secure element. They are parameters.
- WiFi bring-up (`wifi_init_sta`, `event_handler`) is left out because it is link-layer plumbing. So is `mqtt_event_handler`, which only logs and sends fixed subscribe, unsubscribe and publish requests on its own client. So are the LED helpers, which are hardware output, and `app_main`, which is start-up sequencing.
- The actual MQTT and HTTP transports, TLS, `esp_restart` and `vTaskDelay` are left out. A restart is a pass ending; time is the `round` counter and a count of waits.
- The publish itself is recorded as the client, topic and payload it was attempted with. Whether the MQTT library accepts it is not modelled.
- DatabaseDirect.Receiver.Handle: it requires every non-chunked response to fit `rxBuffer` (at most 499 bytes plus the terminator). The handler does not check this, and a longer body would be written past the 500-byte array.
- DatabaseDirect.App.Post: the response body the handler collects is only logged, so Post does not feed the HTTP events to the handler. The handler is modelled on its own.
- DatabaseDirect.App.Post: `esp_http_client_init` returning NULL is not modelled.
- DatabaseDirect.Increment: signed overflow of `count` is undefined in C. The model takes it to wrap in two's complement, as the target compiler does.
- GettingStarted.App.RetryMqttInit: it requires that the client is already running or that some attempt starts it. With no successful attempt the C loop never ends, which a terminating method cannot express.
- Concurrency is left out: all of the modelled logic runs in one FreeRTOS task. `mqtt_event_handler`, which runs on the MQTT client's task, is not modelled.
- `patches/apply_patch.py` and `include/quarklink_extras.h` are not part of this model. The first is a build script; the second declares one platform call with no behaviour to state.

## Findings

| source | as written | input that shows it | evidently intended | confidence | as-written member | corrected member |
|---|---|---|---|---|---|---|
| src/main.c:207-210 | `char body[200]` receives the sprintf of the JSON document. The fixed text is 69 characters, plus the device ID (64), database (up to 29), data source (up to 29) and the count (up to 11) | device ID of 64 characters, database and data source of 29 characters each, count 100000000: a 200-character body plus NUL is 201 bytes into body[200] | a buffer that holds every body a well-formed context and a 32-bit count can give (203 bytes), or a bounded snprintf | not executed | DatabaseDirect.BodyOverflowsAsWritten | DatabaseDirect.BodyFits |
