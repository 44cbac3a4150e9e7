# TV2DeviceMonitor: the monitoring core in Dafny

TV2DeviceMonitor is a background service that watches a roster of streaming
encoders. In every monitoring cycle it walks the configured devices in roster
order. A device whose name or IP address is missing or blank is skipped with a
warning. For every other device the service does the following:

- It fetches the device's state.
- If a state came back, it reports the state to the Prometheus gauges and
  marks the device online.
- It then runs a remediation workflow: check the inputs, authenticate, stop
  the stream, push the configuration, start the stream.
- If the workflow fails, the device is marked offline.

An exception from the fetch is caught and logged. Cycles repeat until the host
cancels the service. The service refuses to start without any configured
device.

The model has five modules:

- `Models` (`models.dfy`) holds the configuration and state records, and the
  two .NET string tests the service uses: `string.IsNullOrEmpty` and
  `string.IsNullOrWhiteSpace`, with the `char.IsWhiteSpace` set.
- `Metrics` (`metrics.dfy`) holds the metrics sink. `MetricsService` is a class
  whose four gauges are maps, overwritten in place. `Gauges`, `Apply` and
  `ApplyAll` give the same effect on values, so lemmas can reason about whole
  sequences of calls.
- `ApiClient` (`api_client.dfy`) holds the device API as an oracle. Each of the
  five operations is a total function of its arguments and of the `Moment` of
  the call (cycle number, roster position). A device may answer anything, and
  may answer differently in every cycle and for every roster entry.
- `DeviceMonitor` (`device_monitor.dfy`) holds the service.
  - Every call on the device or the sink, and every log entry, is an `Event`
    appended to a `trace`. An event records what the call returned.
  - The functions `Remediate`, `UnitOfWork`, `CycleEvents` and `Cycles` give
    the events each step appends.
  - The methods of the class `DeviceMonitorService` make the calls one at a
    time and append each call, metric and log entry to the trace as it
    happens. They are proved to append exactly the events of the matching
    function.
  - `Valid()` says the roster is not empty, which the constructor
    guarantees. It also ties the gauges to the trace: they hold the initial
    gauges with the trace's metric calls applied, in order.
- `MonitorProperties` (`monitor_properties.dfy`) holds what the cycle
  promises:
  - which calls happen and in which order;
  - that the dependent workflow steps each follow the step that allowed them;
  - that every roster entry is visited once, in order;
  - what the online gauge holds after a unit of work.

The model follows the metrics code as written, even where that code reads
against its own declarations:

- `MetricsService.cs` registers a bitrate gauge, `tv2_device_bitrate`
  ("Stream bitrate (bps)", line 18), and a separate buffer gauge,
  `tv2_device_buffer_pct` (line 24).
- The doc comment of `ReportMetrics` says the state carries status and
  bitrate (line 47).
- Yet line 58 sets the bitrate gauge from the state's buffer percentage. The
  state's bitrate is never read, and nothing ever writes the buffer gauge.

`Apply` does the same. `BufferNeverWritten` and `BufferGaugeUnchanged` state
the consequence.

## Model

| member | source | states |
|---|---|---|
| `Models.IsNullOrEmpty` | TV2DeviceMonitor/src/TV2DeviceMonitor.Core/Services/DeviceMonitorService.cs:117-133 | `string.IsNullOrEmpty`: null, or the empty string; a definition with no contract of its own |
| `Models.IsWhiteSpace` | TV2DeviceMonitor/src/TV2DeviceMonitor.Core/Services/DeviceMonitorService.cs:57 | the `char.IsWhiteSpace` set behind `string.IsNullOrWhiteSpace`: U+0009 to U+000D, U+0020, U+0085, U+00A0, U+1680, U+2000 to U+200A, U+2028, U+2029, U+202F, U+205F and U+3000; a definition with no contract of its own |
| `Models.IsNullOrWhiteSpace` | TV2DeviceMonitor/src/TV2DeviceMonitor.Core/Services/DeviceMonitorService.cs:57 | null, or every character is white space; implied by null-or-empty |
| `Models.WhiteSpaceTestIsWider` | TV2DeviceMonitor/src/TV2DeviceMonitor.Core/Services/DeviceMonitorService.cs:117-133 | the inclusion of null-or-empty in null-or-white-space is strict: `" "` is null-or-white-space without being null-or-empty |
| `Metrics.StatusValue` | TV2DeviceMonitor/src/TV2DeviceMonitor.Core/Services/MetricsService.cs:50-56 | total status mapping, each case an if-and-only-if: Idle 1, Streaming 2, Interrupted -1, any other label 0 |
| `Metrics.OnlineValue` | TV2DeviceMonitor/src/TV2DeviceMonitor.Core/Services/MetricsService.cs:39 | 1 exactly when online, 0 exactly when not |
| `Metrics.MetricsService.constructor` | TV2DeviceMonitor/src/TV2DeviceMonitor.Core/Services/MetricsService.cs:11-35 | all four gauges start with no labelled value |
| `Metrics.MetricsService.SetDeviceStatus` | TV2DeviceMonitor/src/TV2DeviceMonitor.Core/Services/MetricsService.cs:37-40 | sets the online gauge of (name, ip) to 1 or 0; status, bitrate and buffer gauges unchanged; the new state is `Apply` of the call |
| `Metrics.MetricsService.ReportMetrics` | TV2DeviceMonitor/src/TV2DeviceMonitor.Core/Services/MetricsService.cs:48-59 | sets the status gauge from the status label and the bitrate gauge to the buffer percentage; buffer and online gauges unchanged; the new state is `Apply` of the call |
| `Metrics.Apply` | TV2DeviceMonitor/src/TV2DeviceMonitor.Core/Services/MetricsService.cs:37-59 | the effect of one sink call on the gauges: neither call touches the buffer gauge; a report touches only the status and bitrate gauges and sets both for its name; an online mark touches only the online gauge and sets it for its label pair |
| `Metrics.ApplyIdempotent` | TV2DeviceMonitor/src/TV2DeviceMonitor.Core/Services/MetricsService.cs:37-59 | repeating a gauge update changes nothing |
| `Metrics.BufferNeverWritten` | TV2DeviceMonitor/src/TV2DeviceMonitor.Core/Services/MetricsService.cs:23-27 | no sequence of sink calls changes the buffer gauge |
| `Metrics.OnlineGaugeIsLastWrite` | TV2DeviceMonitor/src/TV2DeviceMonitor.Core/Services/MetricsService.cs:37-40 | the online gauge of a label pair holds the last value written for it, or its initial value when none was |
| `Metrics.StatusGaugeIsLastReport` | TV2DeviceMonitor/src/TV2DeviceMonitor.Core/Services/MetricsService.cs:48-59 | the status and bitrate gauges of a name hold what the last report for it wrote, or their initial values |
| `DeviceMonitor.RosterGuard` | TV2DeviceMonitor/src/TV2DeviceMonitor.Core/Services/DeviceMonitorService.cs:34-37 | construction succeeds exactly when the roster is present and non-empty, and keeps it unchanged |
| `DeviceMonitor.DeviceMonitorService.Create` | TV2DeviceMonitor/src/TV2DeviceMonitor.Core/Services/DeviceMonitorService.cs:23-38 | fails with NoDevicesConfigured exactly on a null or empty roster; otherwise a fresh service over that roster with an empty trace and the gauges consistent with it |
| `DeviceMonitor.DeviceMonitorService.constructor` | TV2DeviceMonitor/src/TV2DeviceMonitor.Core/Services/DeviceMonitorService.cs:29-37 | given a non-empty roster, as the guard of lines 34-37 leaves it, keeps the client, the sink and the roster; empty trace; records the sink's gauges as the initial ones |
| `DeviceMonitor.DeviceMonitorService.BufferGaugeUnchanged` | TV2DeviceMonitor/src/TV2DeviceMonitor.Core/Services/MetricsService.cs:48-59 | whatever the service has done, the buffer gauge holds its initial value |
| `DeviceMonitor.Remediate` | TV2DeviceMonitor/src/TV2DeviceMonitor.Core/Services/DeviceMonitorService.cs:108-167 | the workflow never opens with a dependent step, makes no metric call, and neither fetches nor logs a skip |
| `DeviceMonitor.Reconfigure` | TV2DeviceMonitor/src/TV2DeviceMonitor.Core/Services/DeviceMonitorService.cs:135-166 | the device half of the workflow, after its checks: never opens with a dependent step, makes no metric call, and neither fetches nor logs a skip |
| `DeviceMonitor.RemediateChecksInOrder` | TV2DeviceMonitor/src/TV2DeviceMonitor.Core/Services/DeviceMonitorService.cs:110-133 | device, user name, password and address are checked in that order; each missing one gives failure with exactly its error entry; no device call happens if and only if an input is missing |
| `DeviceMonitor.RemediateAuthenticatesFirst` | TV2DeviceMonitor/src/TV2DeviceMonitor.Core/Services/DeviceMonitorService.cs:135-166 | with the inputs present, the first call authenticates; an authentication that raises gives failure and no stop, update or start |
| `DeviceMonitor.RemediateSucceedsIff` | TV2DeviceMonitor/src/TV2DeviceMonitor.Core/Services/DeviceMonitorService.cs:135-160 | success if and only if the inputs are present, authentication completes, and stop, update and start all return true |
| `DeviceMonitor.RemediateWellOrdered` | TV2DeviceMonitor/src/TV2DeviceMonitor.Core/Services/DeviceMonitorService.cs:137-158 | a stop only right after a completed authentication, an update only right after a stop that returned true, a start only right after an update that returned true; every call records the device's answer and targets the device's address |
| `DeviceMonitor.Skipped` | TV2DeviceMonitor/src/TV2DeviceMonitor.Core/Services/DeviceMonitorService.cs:57 | the skip test: address or name null or white space; an entry it keeps has a name and an address that are neither null nor empty |
| `DeviceMonitor.FaultMessage` | TV2DeviceMonitor/src/TV2DeviceMonitor.Core/Services/DeviceMonitorService.cs:84-100 | the warning each catch block logs: device offline, HTTP request failed, any other error; a definition with no contract of its own |
| `DeviceMonitor.UnitOfWork` | TV2DeviceMonitor/src/TV2DeviceMonitor.Core/Services/DeviceMonitorService.cs:57-100 | an entry is skipped if and only if its unit is the single skip warning; a unit never opens with a dependent step |
| `DeviceMonitor.CycleEvents` | TV2DeviceMonitor/src/TV2DeviceMonitor.Core/Services/DeviceMonitorService.cs:55-101 | one pass: the units of work of the roster entries, in roster order, the i-th at moment (cycle, i); every entry contributes at least one event |
| `DeviceMonitor.Cycles` | TV2DeviceMonitor/src/TV2DeviceMonitor.Core/Services/DeviceMonitorService.cs:53-105 | the events of the first n passes, one after another; a definition with no contract of its own |
| `DeviceMonitor.CyclesBeforeCancel` | TV2DeviceMonitor/src/TV2DeviceMonitor.Core/Services/DeviceMonitorService.cs:53 | the number of cycles run: every flag read before them was false, and the next one read, if any, was true |
| `DeviceMonitor.DeviceMonitorService.PerformDeviceUpdate` | TV2DeviceMonitor/src/TV2DeviceMonitor.Core/Services/DeviceMonitorService.cs:108-167 | appends exactly the events of `Remediate`, each as it happens, returns its verdict, and leaves the gauges untouched |
| `DeviceMonitor.DeviceMonitorService.ReconfigureDevice` | TV2DeviceMonitor/src/TV2DeviceMonitor.Core/Services/DeviceMonitorService.cs:135-166 | makes the device calls one at a time, appends exactly the events of `Reconfigure`, and returns its verdict |
| `DeviceMonitor.DeviceMonitorService.ReportState` | TV2DeviceMonitor/src/TV2DeviceMonitor.Core/Services/DeviceMonitorService.cs:66-70 | publishes the report and the online mark when a state came back, nothing for a null state; the gauges stay consistent with the trace |
| `DeviceMonitor.DeviceMonitorService.RecordVerdict` | TV2DeviceMonitor/src/TV2DeviceMonitor.Core/Services/DeviceMonitorService.cs:74-82 | logs success, or logs the failure and publishes the offline mark; the gauges stay consistent with the trace |
| `DeviceMonitor.DeviceMonitorService.ProcessDevice` | TV2DeviceMonitor/src/TV2DeviceMonitor.Core/Services/DeviceMonitorService.cs:57-100 | appends exactly the entry's `UnitOfWork` to the trace and keeps the gauges consistent with it |
| `DeviceMonitor.DeviceMonitorService.RunCycle` | TV2DeviceMonitor/src/TV2DeviceMonitor.Core/Services/DeviceMonitorService.cs:55-101 | appends exactly the units of the roster, in roster order, and keeps the gauges consistent |
| `DeviceMonitor.DeviceMonitorService.RunUntilCancelled` | TV2DeviceMonitor/src/TV2DeviceMonitor.Core/Services/DeviceMonitorService.cs:53-105 | runs `CyclesBeforeCancel` cycles and appends exactly their events |
| `DeviceMonitor.DeviceMonitorService.Execute` | TV2DeviceMonitor/src/TV2DeviceMonitor.Core/Services/DeviceMonitorService.cs:45-106 | runs the cycles until cancellation and appends exactly their events; the empty-roster branch of lines 47-51 is proved unreachable, since the roster is never empty |
| `MonitorProperties.SkippedEntryIsNotContacted` | TV2DeviceMonitor/src/TV2DeviceMonitor.Core/Services/DeviceMonitorService.cs:57-65 | an entry is skipped if and only if its unit makes no device call and no metric call; any other entry is fetched first |
| `MonitorProperties.FetchFaultEndsUnit` | TV2DeviceMonitor/src/TV2DeviceMonitor.Core/Services/DeviceMonitorService.cs:84-100 | a fetch that raises gives the fetch and its warning only: no metric, no workflow |
| `MonitorProperties.StateReportedBeforeWorkflow` | TV2DeviceMonitor/src/TV2DeviceMonitor.Core/Services/DeviceMonitorService.cs:65-73 | a returned state is reported, then the device marked online, once each, and before any authentication |
| `MonitorProperties.CycleNeverTripsAddressCheck` | TV2DeviceMonitor/src/TV2DeviceMonitor.Core/Services/DeviceMonitorService.cs:57-73 | inside the cycle, the workflow's missing-device and missing-address errors are never logged: the skip test has already passed over every entry they would reject |
| `MonitorProperties.NullStateReportsNothing` | TV2DeviceMonitor/src/TV2DeviceMonitor.Core/Services/DeviceMonitorService.cs:66-70 | a null state makes no report and no online mark; the only possible metric is the offline mark |
| `MonitorProperties.FailedUpdateMarksOffline` | TV2DeviceMonitor/src/TV2DeviceMonitor.Core/Services/DeviceMonitorService.cs:73-82 | a failed workflow gives exactly one offline mark, as the unit's last call, after the failure warning; a successful one gives none and logs success; success is logged if and only if the workflow succeeded |
| `MonitorProperties.UnitMetricCalls` | TV2DeviceMonitor/src/TV2DeviceMonitor.Core/Services/DeviceMonitorService.cs:66-82 | the sink calls of a unit are the report and online mark (when a state came back), then the offline mark (when the workflow failed) |
| `MonitorProperties.OnlineGaugeAfterUnit` | TV2DeviceMonitor/src/TV2DeviceMonitor.Core/Services/DeviceMonitorService.cs:69-81 | after the unit, the device's online gauge is 0 if the workflow failed, 1 if it succeeded after a returned state, and untouched if it succeeded after a null state |
| `MonitorProperties.UnitTargetsItsDevice` | TV2DeviceMonitor/src/TV2DeviceMonitor.Core/Services/DeviceMonitorService.cs:65-81 | every device call of a unit goes to the entry's address; every metric call is labelled with the entry's name and address |
| `MonitorProperties.UnitWellOrdered` | TV2DeviceMonitor/src/TV2DeviceMonitor.Core/Services/DeviceMonitorService.cs:63-83 | every call of a unit records the device's answer; dependent steps follow their enabling step |
| `MonitorProperties.CycleWellOrdered` | TV2DeviceMonitor/src/TV2DeviceMonitor.Core/Services/DeviceMonitorService.cs:55-101 | over a whole cycle, no stop, update or start happens unless its enabling step came right before it |
| `MonitorProperties.CyclesWellOrdered` | TV2DeviceMonitor/src/TV2DeviceMonitor.Core/Services/DeviceMonitorService.cs:53-105 | the same over any number of cycles |
| `MonitorProperties.UnitVisitsOnce` | TV2DeviceMonitor/src/TV2DeviceMonitor.Core/Services/DeviceMonitorService.cs:57-65 | a unit holds exactly one fetch-or-skip event, the one for its entry |
| `MonitorProperties.CycleVisitsRosterInOrder` | TV2DeviceMonitor/src/TV2DeviceMonitor.Core/Services/DeviceMonitorService.cs:55-61 | a cycle visits every roster entry exactly once and in roster order: its i-th visit is the i-th entry's skip or fetch |

## Left out

- Logging is modelled as one message tag and a level per log statement. The
  message text, its parameters and the exception objects are not modelled.
- Console output, the ten-second delay between cycles and async execution
  are not modelled. Cancellation is a sequence of flags, read before each
  cycle. The loop is bounded by the length of that sequence.
- A cancellation that arrives during the delay makes the delay raise. The
  model reads it as a true flag at the next check.
- The empty branch for critical devices (an unimplemented alert) has no
  effect and is not modelled.
- The HTTP transport and the concrete API client are not modelled. The
  concrete client answers true only on 204 No Content. It catches every
  exception in stop, update and start, so the model gives those three a
  plain boolean answer.
- The concrete fetch also catches everything and returns null. The model
  still lets a fetch raise, as other implementations of the interface may do,
  so the three catch blocks of the cycle are modelled.
- The catch block of the cycle for exceptions from the workflow or the sink
  is not modelled. The workflow catches everything itself, and the modelled
  sink never raises.
- The Prometheus registry, label handling and HTTP exposition are not
  modelled. The gauges are static in the source and so shared by every sink
  instance. The model gives them to one `MetricsService` object.
- Gauge values are doubles in Prometheus. The model uses integers, since
  every value the sink writes is an integer.
- Binding of the `Devices` configuration section is not modelled. `Create`
  receives the bound section, which is absent or a roster.
- The roster test at the head of the monitoring loop (lines 47-51) has no
  log entry in the model. The constructor already refuses a null or empty
  roster, so `Execute` proves that branch unreachable instead of logging
  its warning.
- A device's answers depend on the cycle and the roster position, not on
  wall-clock time. All calls of one unit of work share one moment. Each
  operation is called at most once per unit, so every call can still get its
  own answer.
- Program.cs (host wiring) is not part of this model. The configuration
  service interface and the remaining interfaces are not part of it either.
