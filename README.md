# A verified model of the diagnostics and telemetry wrapper library

The library sits between third-party web code and the browser extension
namespaces `chrome.os.telemetry` and `chrome.os.diagnostics`. This Dafny
project models its core:

- **Routine status-code classifier** (`status_codes.dfy`, module `StatusCodes`).
  - `fillStatusCode` writes a numeric `status_code` into a routine status record:
    - `passed` gets 1;
    - `failed` and `error` get what the routine kind's `getStatusCodeFor<Kind>` lookup returns;
    - any other status is left alone.
  - There are thirty lookups, one per kind. All but the audio driver's are an exact-message `switch` on `status_message`, mapping each listed message to a fixed code; a message the switch does not list gets `undefined`.
  - Some kinds differ from that shape:
    - five "v2" kinds overwrite `status_message` with a fixed text and return a fixed code when the routine failed;
    - the audio driver has no switch: it reads a parsed `output` payload, then tests two patterns on `statusMessage`;
    - the fan and power-button kinds test a message pattern in their `default` branch, giving code 2 on a match and `undefined` otherwise.
  - The record is a value (`RoutineStatus`) for the specification and a class (`StatusObject`) whose fields the two methods update in place, as the source does.
- **Capability gate and errors** (`utils.dfy`, module `Utils`).
  - `isSupported` looks at both namespaces.
  - `MethodNotFoundError` has a fixed name and a message that names the function and the first Chrome milestone that has it.
- **Telemetry requester** (`telemetry_requester.dfy`, module `TelemetryRequester`).
  - Its `isSupported` looks at the telemetry namespace only.
  - `getErrorMessage` builds the error text.
  - Four gated getters and the ungated `getBatteryInfo` forward to the host.
- **Diagnostics** (`diagnostics_manager.dfy`, module `DiagnosticsManager`).
  - The `Routine` handle, with its fixed id and its `getStatus`, `resume` and `stop` commands.
  - The seven managers. Each of their fifteen `run…Routine` methods checks the shared gate, then wraps the answer's `id` in a `Routine`.
  - `DPSLDiagnosticsManager.getAvailableRoutines`.

Supporting modules:

- `Wrappers`: `Option` and `Result`.
- `Decimal`: the decimal rendering of a version number, its parser and the round trip between them.
- `Host`: the host environment.
  - `chrome.os` is modelled as optional namespaces that map names to function or non-function members.
  - The backend is a `Backend` object. It keeps the log of every call made into the host, and answers each call through a function of the calls made before it.
  - Calling what is not a function fails with a `TypeError` and calls nothing.

Three behaviours of the code are easy to miss:

- A failed or errored routine whose message matches no case and no pattern gets no code (`None`, the source's `undefined`). It does not get the exception code 2.
- `Routine.getStatus`, `resume` and `stop` return the host's answer unchanged. They do not classify it.
- A routine handle does not remember which kind of routine it is.

## Model

| member | source | states |
|---|---|---|
| StatusCodes.Fill | src/status_codes.js:32-45 | only `status_message` and `status_code` can change; the message changes only when a v2 kind overwrites it, and the code only for passed, failed or error |
| StatusCodes.FillStatusCode | src/status_codes.js:32-45 | updates the object in place to exactly `Fill` of its old value and returns the same object |
| StatusCodes.GetStatusCodeFor | src/status_codes.js:53-714 | returns `StatusCodeFor` of the old record, and the only field it writes is `status_message`, which it sets to `MessageAfter` (the v2 overwrite) |
| StatusCodes.StatusCodeFor | src/status_codes.js:53-714 | every code a lookup returns lies in its kind's code space: the exception code 2 or the kind's own block |
| StatusCodes.MessageAfter | src/status_codes.js:288-303 | the message changes only when a v2 kind's routine failed |
| StatusCodes.MessageCode | src/status_codes.js:53-714 | a code that is not the first matching case's code is the exception code, given only for a message of the kind's pattern |
| StatusCodes.FirstLabelIsFirst | src/status_codes.js:53-66 | the switch selects the first case whose label equals the message, and selects none exactly when no label equals it |
| StatusCodes.Cases | src/status_codes.js:53-714 | the case table of each kind, one entry per case label in source order; it is empty exactly for the audio driver, floating point accuracy and prime search |
| StatusCodes.CaseSelects | src/status_codes.js:53-66 | a message equal to a case label, with no earlier case carrying that label, gets that case's code |
| StatusCodes.ExactMessageGetsCaseCode | src/status_codes.js:53-66 | through `fillStatusCode`, a failed or errored record whose message is a case label gets that case's code |
| StatusCodes.UnmatchedMessageGetsNoCode | src/status_codes.js:53-66 | a message that is no label and matches no pattern gets no code at all, not code 2 |
| StatusCodes.PassedGetsCodeOne | src/status_codes.js:33-36 | a passed record gets code 1 and nothing else changes, whatever the kind |
| StatusCodes.UnclassifiedUntouched | src/status_codes.js:41-44 | a status other than passed, failed or error leaves the record unchanged |
| StatusCodes.FailedOrErrorGetsKindCode | src/status_codes.js:37-40 | a failed or errored record gets exactly its kind's lookup result, and the message that lookup leaves |
| StatusCodes.V2FailedIsFixed | src/status_codes.js:288-303 | a failed v2 routine gets the kind's fixed code and fixed message whatever its message was; that code is a kind code, not 2 |
| StatusCodes.V2FailureOf | src/status_codes.js:291-293 | exactly the five v2 kinds (CPU cache here; CPU stress 314-316, fan 416-419, memory 524-526, UFS lifetime 702-704) have a fixed failure, whose code is a kind code and not 2 |
| StatusCodes.V2ErrorKeepsMessage | src/status_codes.js:311-326 | an errored v2 routine keeps its message, and that message is looked up in the switch |
| StatusCodes.AudioDriverCode | src/status_codes.js:74-96 | the audio driver's codes lie in its code space, and it gives no code exactly when the payload is absent or passes and `statusMessage` has neither cras shape |
| StatusCodes.AudioDriverOutputCodes | src/status_codes.js:77-85 | with an output payload, a missing internal card gives 0x0060001 whatever the devices did; a detected card whose devices failed to open gives 0x0060002 |
| StatusCodes.AudioDriverIgnoresStatusMessage | src/status_codes.js:86-95 | the audio driver never reads `status_message`; it gives code 2 exactly when the payload passes and `statusMessage` has one of the two cras shapes |
| StatusCodes.AudioDriverDeviceOpenExample | src/status_codes.js:81-83 | a failed run with a detected card whose devices did not open gets 0x0060002 |
| StatusCodes.FanThermalSensorMessage | src/status_codes.js:434-438 | a fan error about a thermal sensor with a digit index gets code 2 |
| StatusCodes.FanThermalSensorBadSuffix | src/status_codes.js:434-438 | the same prefix followed by an empty or non-digit suffix gets no code |
| StatusCodes.PowerButtonTimeoutRange | src/status_codes.js:616-620 | a power-button "timeout is not in range [d, d]" message gets code 2 |
| StatusCodes.TimeoutRangeMatches | src/status_codes.js:616 | the hand-written matcher accepts every message of the form prefix, digits, comma and space, digits, closing bracket |
| StatusCodes.TimeoutRangeOnly | src/status_codes.js:616 | the matcher accepts nothing else: every accepted message splits into two digit runs in that form |
| StatusCodes.PrefixThenDigits | src/status_codes.js:434 | the message is the prefix followed by a non-empty run of ASCII digits, as `^prefix\d+$` accepts |
| StatusCodes.IsTimeoutRangeMessage | src/status_codes.js:616 | an accepted message starts with `Timeout is not in range [`, ends with `]` and is long enough for two digits and `, ` |
| StatusCodes.IsDynamicException | src/status_codes.js:433-438 | only the fan (line 434) and power-button (line 616) kinds have a pattern, and it never accepts the empty message |
| StatusCodes.MessageCodeInCodeSpace | src/status_codes.js:53-714 | a message lookup's code lies in the kind's code space |
| StatusCodes.CodeInKindSpace | src/status_codes.js:53-714 | every code `fillStatusCode` writes for a failed or errored record lies in the kind's code space |
| StatusCodes.CodeSpacesDisjoint | src/status_codes.js:53-714 | two different kinds share no code but 2 |
| StatusCodes.BlockPrefixIdentifiesKind | src/status_codes.js:53-714 | every block prefix is positive, every block has fewer than 0x10000 codes, and a prefix determines its kind |
| StatusCodes.MainAdapterMessagePerKind | src/status_codes.js:186-279 | the main-adapter message gets 0x00B0002, 0x00C0004, 0x00D0002 and 0x00E0003 from the four Bluetooth lookups |
| StatusCodes.MainAdapterDiscovery | src/status_codes.js:186-201 | Bluetooth discovery maps the main-adapter message to 0x00B0002 |
| StatusCodes.MainAdapterPairing | src/status_codes.js:209-233 | Bluetooth pairing maps it to 0x00C0004 |
| StatusCodes.MainAdapterPower | src/status_codes.js:241-257 | Bluetooth power maps it to 0x00D0002 |
| StatusCodes.MainAdapterScanning | src/status_codes.js:265-279 | Bluetooth scanning maps it to 0x00E0003 |
| StatusCodes.SmartctlCheckFailedExample | src/status_codes.js:679-691 | a smartctl report of failed checks gets 0x02A0001 |
| StatusCodes.NoCodeForFloatingPointAndPrimeSearch | src/status_codes.js:466-471 | floating point accuracy (and prime search, lines 630-635) give no code to any failed or errored record |
| StatusCodes.FillIdempotent | src/status_codes.js:32-45 | filling twice gives the record filling once gives |
| StatusCodes.AcPowerCode | src/status_codes.js:53-66 | the AC power lookup's codes lie in its code space |
| StatusCodes.BatteryCapacityCode | src/status_codes.js:104-114 | the lookup's codes lie in the battery capacity code space |
| StatusCodes.BatteryChargeCode | src/status_codes.js:122-135 | the lookup's codes lie in the battery charge code space |
| StatusCodes.BatteryDischargeCode | src/status_codes.js:143-156 | the lookup's codes lie in the battery discharge code space |
| StatusCodes.BatteryHealthCode | src/status_codes.js:164-178 | the lookup's codes lie in the battery health code space |
| StatusCodes.BluetoothDiscoveryCode | src/status_codes.js:186-201 | the lookup's codes lie in the Bluetooth discovery code space |
| StatusCodes.BluetoothPairingCode | src/status_codes.js:209-233 | the lookup's codes lie in the Bluetooth pairing code space |
| StatusCodes.BluetoothPowerCode | src/status_codes.js:241-257 | the lookup's codes lie in the Bluetooth power code space |
| StatusCodes.BluetoothScanningCode | src/status_codes.js:265-279 | the lookup's codes lie in the Bluetooth scanning code space |
| StatusCodes.CpuCacheCode | src/status_codes.js:288-303 | the message lookup's codes lie in the CPU cache code space |
| StatusCodes.CpuStressCode | src/status_codes.js:311-326 | the message lookup's codes lie in the CPU stress code space |
| StatusCodes.DiskReadCode | src/status_codes.js:334-352 | the lookup's codes lie in the disk read code space |
| StatusCodes.DnsResolutionCode | src/status_codes.js:360-369 | the lookup's codes lie in the DNS resolution code space |
| StatusCodes.DnsResolverPresentCode | src/status_codes.js:377-388 | the lookup's codes lie in the DNS resolver code space |
| StatusCodes.EmmcLifetimeCode | src/status_codes.js:396-406 | the lookup's codes lie in the eMMC lifetime code space |
| StatusCodes.FanCode | src/status_codes.js:413-440 | the message lookup's codes, pattern included, lie in the fan code space |
| StatusCodes.FingerprintAliveCode | src/status_codes.js:449-458 | the lookup's codes lie in the fingerprint alive code space |
| StatusCodes.GatewayCanBePingedCode | src/status_codes.js:479-497 | the lookup's codes lie in the gateway ping code space |
| StatusCodes.LanConnectivityCode | src/status_codes.js:505-514 | the lookup's codes lie in the LAN connectivity code space |
| StatusCodes.MemoryCode | src/status_codes.js:521-538 | the message lookup's codes lie in the memory code space |
| StatusCodes.NvmeSelfTestCode | src/status_codes.js:546-580 | the lookup's codes lie in the NVMe self-test code space |
| StatusCodes.NvmeWearLevelCode | src/status_codes.js:588-599 | the lookup's codes lie in the NVMe wear-level code space |
| StatusCodes.PowerButtonCode | src/status_codes.js:607-622 | the lookup's codes, pattern included, lie in the power button code space |
| StatusCodes.SensitiveSensorCode | src/status_codes.js:643-654 | the lookup's codes lie in the sensitive sensor code space |
| StatusCodes.SignalStrengthCode | src/status_codes.js:662-671 | the lookup's codes lie in the signal strength code space |
| StatusCodes.SmartctlCheckCode | src/status_codes.js:679-691 | the lookup's codes lie in the smartctl check code space |
| StatusCodes.UfsLifeTimeCode | src/status_codes.js:699-714 | the message lookup's codes lie in the UFS lifetime code space |
| Utils.IsSupported | src/utils.js:32-42 | the gate holds exactly for the names of function members of the telemetry or the diagnostics namespace |
| Utils.NoOsNothingSupported | src/utils.js:33-37 | without `chrome.os` no name is supported |
| Utils.NonFunctionNotSupported | src/utils.js:34-39 | a member that exists but is not a function is not supported |
| Utils.MethodNotFoundError | src/utils.js:55-58 | the error's name is always `DPSL_MethodNotFoundError`, and its message is the fixed text around the API name, the function name and the milestone |
| Utils.MethodNotFoundMessage | src/utils.js:56-57 | the API name, the function name and the milestone can be read back from the message when the API name has no dot |
| Utils.MethodNotFoundMessageInjective | src/utils.js:56-57 | different (API, function, milestone) triples give different messages |
| Decimal.NatToString | src/utils.js:57 | the milestone after `M` is a non-empty run of digits without a leading zero |
| Decimal.ParseNatToString | src/utils.js:57 | reading the digits back gives the milestone |
| Decimal.NatToStringInjective | src/utils.js:57 | different milestones are written differently |
| TelemetryRequester.IsSupported | src/telemetry_requester.js:32-36 | the gate holds exactly for the names of function members of the telemetry namespace |
| TelemetryRequester.TelemetryGateNarrower | src/telemetry_requester.js:32-36 | the telemetry gate implies the shared gate; a name only the diagnostics namespace has passes the shared gate but not this one |
| TelemetryRequester.GetErrorMessage | src/telemetry_requester.js:44-47 | the exact text of the message, and the function name can be read back from it |
| TelemetryRequester.ErrorMessageInjective | src/telemetry_requester.js:44-47 | different function names give different messages |
| TelemetryRequester.NotFound | src/telemetry_requester.js:61-62 | a getter's rejection is a plain `Error` whose message names the getter |
| TelemetryRequester.DPSLTelemetryRequester.Gated | src/telemetry_requester.js:59-66 | unsupported: rejects with the not-found error and calls nothing; supported: one call without arguments, whose answer is returned as it is |
| TelemetryRequester.DPSLTelemetryRequester.GetVpdInfo | src/telemetry_requester.js:59-66 | the gate-then-forward for `getVpdInfo` |
| TelemetryRequester.DPSLTelemetryRequester.GetOemData | src/telemetry_requester.js:73-80 | the gate-then-forward for `getOemData` |
| TelemetryRequester.DPSLTelemetryRequester.GetCpuInfo | src/telemetry_requester.js:87-94 | the gate-then-forward for `getCpuInfo` |
| TelemetryRequester.DPSLTelemetryRequester.GetMemoryInfo | src/telemetry_requester.js:101-108 | the gate-then-forward for `getMemoryInfo` |
| TelemetryRequester.DPSLTelemetryRequester.GetBatteryInfo | src/telemetry_requester.js:115-117 | no gate: one call when the host has the function, a TypeError and no call otherwise |
| Host.CommandName | src/diagnostics_manager.js:29-34 | cancel is sent as `cancel`, remove as `remove`, resume as `resume`, and the status query as `status` |
| Host.CommandNamesDistinct | src/diagnostics_manager.js:29-34 | the four command strings are pairwise distinct |
| Host.Backend.Invoke | src/diagnostics_manager.js:116-117 | calling a host function appends exactly that call to the log and returns the host's answer; calling what is not a function raises a TypeError and calls nothing |
| Host.Field | src/diagnostics_manager.js:117 | `response.id` is undefined unless the response is an object that has an `id` field with that value |
| DiagnosticsManager.UpdateCall | src/diagnostics_manager.js:59-67 | a routine's request goes to `getRoutineUpdate` in the diagnostics namespace and carries the routine's id and the command's string |
| DiagnosticsManager.UpdateCallInjective | src/diagnostics_manager.js:59-67 | two requests are equal only for the same id and the same command |
| DiagnosticsManager.Routine.constructor | src/diagnostics_manager.js:44-51 | the id is the one given; it is a constant and never changes |
| DiagnosticsManager.Routine.GetRoutineUpdate | src/diagnostics_manager.js:59-67 | exactly one `{id, command}` request is appended to the log, and the host's answer is returned unchanged; a TypeError and no call when the host lacks the function |
| DiagnosticsManager.Routine.GetStatus | src/diagnostics_manager.js:74-76 | one `status` request for this id; the answer is returned without classification |
| DiagnosticsManager.Routine.Resume | src/diagnostics_manager.js:83-85 | one `resume` request for this id |
| DiagnosticsManager.Routine.Stop | src/diagnostics_manager.js:93-96 | a `cancel` request, then a `remove` request for the same id, in that order; the `remove` answer is returned |
| DiagnosticsManager.RunRoutine | src/diagnostics_manager.js:109-118 | unsupported: MethodNotFoundError and no call; a telemetry-only name: TypeError and no call; otherwise one call with the arguments, and a fresh routine holding the answer's `id`, or the host's rejection |
| DiagnosticsManager.ResponseId | src/diagnostics_manager.js:116-117 | a rejection is passed on as it is; a null or undefined answer, and only such an answer, gives a TypeError; a defined id comes only from an object answer |
| DiagnosticsManager.GateErrorNamesFunction | src/diagnostics_manager.js:130-135 | the gate's error is named `DPSL_MethodNotFoundError`, and its message gives back `diagnostics`, the function and the milestone |
| DiagnosticsManager.UnsupportedRunMakesNoCall | src/diagnostics_manager.js:130-135 | a run for a name the diagnostics namespace lacks makes no call and never passes on a host answer |
| DiagnosticsManager.AcPowerManager.RunAcPowerRoutine | src/diagnostics_manager.js:109-118 | `runAcPowerRoutine`, milestone 105, parameters passed on as they are |
| DiagnosticsManager.BatteryManager.RunCapacityRoutine | src/diagnostics_manager.js:130-139 | `runBatteryCapacityRoutine`, milestone 96, no arguments |
| DiagnosticsManager.BatteryManager.RunHealthRoutine | src/diagnostics_manager.js:146-155 | `runBatteryHealthRoutine`, milestone 96, no arguments |
| DiagnosticsManager.BatteryManager.RunDischargeRoutine | src/diagnostics_manager.js:163-172 | `runBatteryDischargeRoutine`, milestone 96, parameters passed on |
| DiagnosticsManager.BatteryManager.RunChargeRoutine | src/diagnostics_manager.js:180-189 | `runBatteryChargeRoutine`, milestone 96, parameters passed on |
| DiagnosticsManager.CpuManager.RunCacheRoutine | src/diagnostics_manager.js:202-211 | `runCpuCacheRoutine`, milestone 96, parameters passed on |
| DiagnosticsManager.CpuManager.RunStressRoutine | src/diagnostics_manager.js:219-228 | `runCpuStressRoutine`, milestone 96, parameters passed on |
| DiagnosticsManager.CpuManager.RunFloatingPointAccuracyRoutine | src/diagnostics_manager.js:236-245 | `runCpuFloatingPointAccuracyRoutine`, milestone 99, parameters passed on |
| DiagnosticsManager.CpuManager.RunPrimeSearchRoutine | src/diagnostics_manager.js:253-262 | `runCpuPrimeSearchRoutine`, milestone 99, parameters passed on |
| DiagnosticsManager.MemoryManager.RunMemoryRoutine | src/diagnostics_manager.js:274-283 | `runMemoryRoutine`, milestone 96, no arguments |
| DiagnosticsManager.DiskManager.RunReadRoutine | src/diagnostics_manager.js:296-305 | `runDiskReadRoutine`, milestone 101, parameters passed on |
| DiagnosticsManager.NvmeManager.RunSmartctlCheckRoutine | src/diagnostics_manager.js:317-326 | `runSmartctlCheckRoutine`, milestone 100, no arguments |
| DiagnosticsManager.NvmeManager.RunWearLevelRoutine | src/diagnostics_manager.js:334-343 | `runNvmeWearLevelRoutine`, milestone 100, parameters passed on |
| DiagnosticsManager.NetworkManager.RunLanConnectivityRoutine | src/diagnostics_manager.js:355-364 | `runLanConnectivityRoutine`, milestone 102, no arguments |
| DiagnosticsManager.NetworkManager.RunSignalStrengthRoutine | src/diagnostics_manager.js:371-380 | `runSignalStrengthRoutine`, milestone 108, no arguments |
| DiagnosticsManager.DPSLDiagnosticsManager.constructor | src/diagnostics_manager.js:390-432 | builds the seven managers, all over the same host |
| DiagnosticsManager.DPSLDiagnosticsManager.GetAvailableRoutines | src/diagnostics_manager.js:439-447 | gated at milestone 96; when supported, one call without arguments whose list is returned unchanged, order included |

## Left out

- Promises, `async` and the event loop are not modelled. Every method completes at once, and a rejected promise is a `Failure`.
- `stop` does not wait for `cancel`. The model fixes only the order in which the two requests are issued, not the order in which they complete.
- `JSON.parse` of the audio driver's `output` is not modelled. The payload is the parsed value with two booleans, and a missing field counts as false. An empty `output` is falsy and is skipped like an absent one (`None`). A non-empty `output` that is not JSON text, or that is the JSON `null`, is not modelled; the source throws on both (the parse, or the field read on `null`). Any other JSON value without those fields, such as a number, a boolean or a string, reads both fields as `undefined` and is modelled as `AudioOutput(false, false)`.
- The regular expressions are replaced by string predicates written by hand: a fixed prefix, then one or more ASCII digits (`\d+`), up to the end of the message. The power button's second pattern is a fixed prefix, digits, `, `, digits, then `]`.
- A missing `status_message` is `None`. The source would test its patterns against the text "undefined", which none of them matches.
- Members reached through the prototype chain are not modelled, for example `isSupported('toString')`. Only own members of a namespace count.
- A missing `chrome` global is not modelled. It would be a ReferenceError.
- The value of `isSupported` is a boolean. The source may return a falsy non-boolean (`undefined`), and its callers only negate it.
- The per-kind lookup functions (for example `StatusCodes.AcPowerCode`) take a present message. The absent message and the v2 overwrite are handled once, for every kind, in `StatusCodes.StatusCodeFor`.
- `StatusCodes.GetStatusCodeFor`: the JavaScript lookups take the whole record. The model's lookups read `status_message`; the five v2 kinds also read `status`, and the audio driver reads only `output` and `statusMessage`. No lookup reads any other field.
- `DiagnosticsManager.RunRoutine`: a host answer that is not an object, for example a number, gives a routine whose id is undefined, as reading `.id` on such a value does in the source. Getters defined on such values are not modelled.
- The data the host returns (status records, routine lists, telemetry records) is an uninterpreted JSON value.
- The type definitions (`src/types.js`) and the test harness are not modelled.
