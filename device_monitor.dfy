/** The monitoring service: the remediation workflow for one device, the
    per-device unit of work of a monitoring cycle, the cycle over the roster,
    and the loop of cycles.

    Every call the service makes, on the device API or on the metrics sink,
    and every log entry it writes, is appended to a trace. A call records what
    it returned. The device API is consulted with the moment of the call: the
    cycle number and the roster position being processed. The functions Remediate, UnitOfWork, CycleEvents and Cycles
    give the events each step appends. The methods of DeviceMonitorService
    perform the steps one call at a time and are proved to append exactly
    those events. */
module DeviceMonitor {
  import opened Models
  import opened Metrics
  import opened ApiClient

  datatype LogLevel = Information | Warning | Error

  /** The log entries the service writes, one per distinct message. */
  datatype LogMessage =
    | DeviceSkipped
    | DeviceUpdated
    | DeviceUpdateFailed
    | DeviceOfflineLogged
    | HttpRequestFailedLogged
    | UnexpectedErrorLogged
    | DeviceConfigMissing
    | UsernameMissing
    | PasswordMissing
    | IpAddressMissing
    | StopStreamFailed
    | ConfigurationFailed
    | StartStreamFailed
    | DeviceUpdateError

  datatype Event =
    | GetDeviceState(ip: string, fetched: FetchResult)
    | Authenticate(ip: string, username: string, password: string, completion: Completion)
    | StopStream(ip: string, stopped: bool)
    | UpdateConfiguration(ip: string, config: DeviceConfig, updated: bool)
    | StartStream(ip: string, started: bool)
    | Metric(call: MetricCall)
    | Log(level: LogLevel, message: LogMessage)
  {
    /** A call on the device API. */
    predicate IsApiCall() {
      !Metric? && !Log?
    }
  }

  /** An API call recorded at moment `t` holds what the API answered then. */
  predicate Answered(api: DeviceApi, e: Event, t: Moment) {
    match e
    case GetDeviceState(ip, fetched) => fetched == api.getDeviceState(ip, t)
    case Authenticate(ip, user, pass, completion) => completion == api.authenticate(ip, user, pass, t)
    case StopStream(ip, stopped) => stopped == api.stopStream(ip, t)
    case UpdateConfiguration(ip, config, updated) => updated == api.updateConfiguration(ip, config, t)
    case StartStream(ip, started) => started == api.startStream(ip, t)
    case _ => true
  }

  /** Every API call in `es`, made at moment `at`, holds what the API
      answered. */
  predicate ConsistentWith(api: DeviceApi, es: seq<Event>, at: Moment) {
    forall i | 0 <= i < |es| :: Answered(api, es[i], at)
  }

  /** The call at position j of `es` comes right after the step it depends on:
      a stop right after an authentication of the same address that did not
      raise, an update right after a stop of that address that returned true,
      a start right after an update of that address that returned true. */
  predicate StepAllowed(es: seq<Event>, j: nat)
    requires j < |es|
  {
    match es[j]
    case StopStream(ip, _) =>
      j > 0 && es[j - 1].Authenticate? && es[j - 1].ip == ip && es[j - 1].completion.Completed?
    case UpdateConfiguration(ip, _, _) =>
      j > 0 && es[j - 1].StopStream? && es[j - 1].ip == ip && es[j - 1].stopped
    case StartStream(ip, _) =>
      j > 0 && es[j - 1].UpdateConfiguration? && es[j - 1].ip == ip && es[j - 1].updated
    case _ => true
  }

  predicate WellOrdered(es: seq<Event>) {
    forall j | 0 <= j < |es| :: StepAllowed(es, j)
  }

  /** An event that may only come right after another. */
  predicate IsDependentStep(e: Event) {
    e.StopStream? || e.UpdateConfiguration? || e.StartStream?
  }

  /** The event that opens the unit of work of a roster entry: the fetch of
      its state, or the warning that it is skipped. */
  predicate IsVisit(e: Event) {
    e.GetDeviceState? || e == Log(Warning, DeviceSkipped)
  }

  /** The metric calls among the events, in order. */
  function MetricCalls(es: seq<Event>): seq<MetricCall> {
    if es == [] then []
    else
      var last := es[|es| - 1];
      MetricCalls(es[..|es| - 1]) + if last.Metric? then [last.call] else []
  }

  lemma MetricCallsSnoc(es: seq<Event>, e: Event)
    ensures !e.Metric? ==> MetricCalls(es + [e]) == MetricCalls(es)
    ensures e.Metric? ==> MetricCalls(es + [e]) == MetricCalls(es) + [e.call]
  {
    assert (es + [e])[..|es|] == es;
  }

  lemma {:induction false} MetricCallsAppend(a: seq<Event>, b: seq<Event>)
    ensures MetricCalls(a + b) == MetricCalls(a) + MetricCalls(b)
    decreases |b|
  {
    if b == [] {
      assert a + b == a;
    } else {
      assert (a + b)[..|a + b| - 1] == a + b[..|b| - 1];
      MetricCallsAppend(a, b[..|b| - 1]);
    }
  }

  /** The result of the remediation workflow and the events it appends. */
  datatype Outcome = Outcome(success: bool, events: seq<Event>)

  /** The inputs the workflow checks before it calls the device. */
  predicate InputsPresent(device: Option<DeviceConfig>, user: Option<string>, pass: Option<string>) {
    device.Some? && !IsNullOrEmpty(user) && !IsNullOrEmpty(pass) && !IsNullOrEmpty(device.value.ipAddress)
  }

  /** The remediation workflow, run at moment `at`: check the
      device, user name, password and address in that order; then
      authenticate, stop the stream, push the configuration and start the
      stream, stopping at the first failure.  It never raises. */
  function Remediate(api: DeviceApi, device: Option<DeviceConfig>, user: Option<string>, pass: Option<string>,
                     at: Moment): (r: Outcome)
    ensures r.events != [] && !IsDependentStep(r.events[0])
    ensures forall e <- r.events :: !e.Metric? && !IsVisit(e)
  {
    if device.None? then Outcome(false, [Log(Error, DeviceConfigMissing)])
    else if IsNullOrEmpty(user) then Outcome(false, [Log(Error, UsernameMissing)])
    else if IsNullOrEmpty(pass) then Outcome(false, [Log(Error, PasswordMissing)])
    else if IsNullOrEmpty(device.value.ipAddress) then Outcome(false, [Log(Error, IpAddressMissing)])
    else Reconfigure(api, device.value, user.value, pass.value, at)
  }

  /** The device half of the workflow, once its inputs are checked:
      authenticate, stop the stream, push the configuration and start the
      stream, stopping at the first failure. */
  function Reconfigure(api: DeviceApi, d: DeviceConfig, u: string, p: string, at: Moment): (r: Outcome)
    requires d.ipAddress.Some?
    ensures r.events != [] && !IsDependentStep(r.events[0])
    ensures forall e <- r.events :: !e.Metric? && !IsVisit(e)
  {
    var ip := d.ipAddress.value;
    var auth := Authenticate(ip, u, p, api.authenticate(ip, u, p, at));
    if auth.completion.Raised? then Outcome(false, [auth, Log(Error, DeviceUpdateError)])
    else
      var stop := StopStream(ip, api.stopStream(ip, at));
      if !stop.stopped then Outcome(false, [auth, stop, Log(Warning, StopStreamFailed)])
      else
        var update := UpdateConfiguration(ip, d, api.updateConfiguration(ip, d, at));
        if !update.updated then Outcome(false, [auth, stop, update, Log(Warning, ConfigurationFailed)])
        else
          var start := StartStream(ip, api.startStream(ip, at));
          if !start.started then Outcome(false, [auth, stop, update, start, Log(Warning, StartStreamFailed)])
          else Outcome(true, [auth, stop, update, start])
  }

  /** Each missing input is a failure with one error entry and no call; the
      device, user name, password and address are checked in that order. */
  lemma RemediateChecksInOrder(api: DeviceApi, device: Option<DeviceConfig>, user: Option<string>,
                               pass: Option<string>, at: Moment)
    ensures var r := Remediate(api, device, user, pass, at);
      && (device.None? ==> r == Outcome(false, [Log(Error, DeviceConfigMissing)]))
      && (device.Some? && IsNullOrEmpty(user) ==> r == Outcome(false, [Log(Error, UsernameMissing)]))
      && (device.Some? && !IsNullOrEmpty(user) && IsNullOrEmpty(pass) ==>
            r == Outcome(false, [Log(Error, PasswordMissing)]))
      && (device.Some? && !IsNullOrEmpty(user) && !IsNullOrEmpty(pass) && IsNullOrEmpty(device.value.ipAddress) ==>
            r == Outcome(false, [Log(Error, IpAddressMissing)]))
      && (!InputsPresent(device, user, pass) <==> forall e <- r.events :: !e.IsApiCall())
  {
    var r := Remediate(api, device, user, pass, at);
    if InputsPresent(device, user, pass) {
      assert r.events[0].Authenticate? && r.events[0] in r.events;
    }
  }

  /** With the inputs present, the first call authenticates; an
      authentication that raises ends the workflow in failure, before any
      stop, update or start. */
  lemma RemediateAuthenticatesFirst(api: DeviceApi, device: Option<DeviceConfig>, user: Option<string>,
                                    pass: Option<string>, at: Moment)
    requires InputsPresent(device, user, pass)
    ensures var r, ip := Remediate(api, device, user, pass, at), device.value.ipAddress.value;
      && r.events[0] == Authenticate(ip, user.value, pass.value, api.authenticate(ip, user.value, pass.value, at))
      && (api.authenticate(ip, user.value, pass.value, at).Raised? ==>
            !r.success && forall e <- r.events :: !IsDependentStep(e))
  {
  }

  /** The workflow succeeds exactly when the inputs are present, the
      authentication completes and the stop, the update and the start all
      return true. */
  lemma RemediateSucceedsIff(api: DeviceApi, device: Option<DeviceConfig>, user: Option<string>,
                             pass: Option<string>, at: Moment)
    ensures Remediate(api, device, user, pass, at).success <==>
              && InputsPresent(device, user, pass)
              && var d, ip := device.value, device.value.ipAddress.value;
              && api.authenticate(ip, user.value, pass.value, at).Completed?
              && api.stopStream(ip, at)
              && api.updateConfiguration(ip, d, at)
              && api.startStream(ip, at)
  {
  }

  /** Each step of the workflow comes right after the step that allowed it,
      every call holds what the device answered and goes to the device's
      address. */
  lemma RemediateWellOrdered(api: DeviceApi, device: Option<DeviceConfig>, user: Option<string>,
                             pass: Option<string>, at: Moment)
    ensures var r := Remediate(api, device, user, pass, at);
      && WellOrdered(r.events)
      && ConsistentWith(api, r.events, at)
      && forall e <- r.events :: e.IsApiCall() ==>
           InputsPresent(device, user, pass) && e.ip == device.value.ipAddress.value
  {
    if InputsPresent(device, user, pass) {
      ReconfigureWellOrdered(api, device.value, user.value, pass.value, at);
    }
  }

  lemma ReconfigureWellOrdered(api: DeviceApi, d: DeviceConfig, u: string, p: string, at: Moment)
    requires d.ipAddress.Some?
    ensures var r := Reconfigure(api, d, u, p, at);
      && WellOrdered(r.events)
      && ConsistentWith(api, r.events, at)
      && forall e <- r.events :: e.IsApiCall() ==> e.ip == d.ipAddress.value
  {
  }

  /** A roster entry the cycle passes over.  An entry it keeps has a name and
      an address that are neither null nor empty. */
  predicate Skipped(d: DeviceConfig): (r: bool)
    ensures !r ==> !IsNullOrEmpty(d.ipAddress) && !IsNullOrEmpty(d.name)
  {
    IsNullOrWhiteSpace(d.ipAddress) || IsNullOrWhiteSpace(d.name)
  }

  /** The log entry of each catch block. */
  function FaultMessage(f: Fault): LogMessage {
    match f
    case DeviceOffline => DeviceOfflineLogged
    case HttpRequestFailed => HttpRequestFailedLogged
    case Unexpected => UnexpectedErrorLogged
  }

  /** The metric calls a unit of work makes after a fetch that returned: a
      report and an online mark when a state came back, nothing otherwise. */
  function OnlineReport(d: DeviceConfig, state: Option<DeviceState>): seq<Event>
    requires !Skipped(d)
  {
    if state.Some? then [Metric(ReportMetrics(d.name.value, state.value)), Metric(SetDeviceStatus(d.name.value, d.ipAddress.value, true))]
    else []
  }

  /** The events a unit of work ends with once its workflow has run. */
  function Verdict(success: bool, name: string, ip: string): seq<Event> {
    if success then [Log(Information, DeviceUpdated)]
    else [Log(Warning, DeviceUpdateFailed), Metric(SetDeviceStatus(name, ip, false))]
  }

  /** The unit of work for one roster entry, at moment `at`: skip it, or fetch its state, report it, run the workflow and
      mark the device offline when the workflow fails; an exception from the
      fetch is caught and logged. */
  function UnitOfWork(api: DeviceApi, d: DeviceConfig, at: Moment): (events: seq<Event>)
    ensures events != [] && !IsDependentStep(events[0])
    ensures Skipped(d) <==> events == [Log(Warning, DeviceSkipped)]
  {
    if Skipped(d) then [Log(Warning, DeviceSkipped)]
    else
      var ip := d.ipAddress.value;
      var fetched := api.getDeviceState(ip, at);
      var fetch := GetDeviceState(ip, fetched);
      match fetched
      case Threw(f) => [fetch, Log(Warning, FaultMessage(f))]
      case Returned(state) =>
        var r := Remediate(api, Some(d), d.username, d.password, at);
        [fetch] + OnlineReport(d, state) + r.events + Verdict(r.success, d.name.value, ip)
  }

  /** The events of pass number `cycle` over the roster: the units of work
      of the entries, in roster order. */
  function CycleEvents(api: DeviceApi, devices: seq<DeviceConfig>, cycle: nat): (events: seq<Event>)
    ensures |events| >= |devices|
  {
    if devices == [] then []
    else
      CycleEvents(api, devices[..|devices| - 1], cycle)
        + UnitOfWork(api, devices[|devices| - 1], Moment(cycle, |devices| - 1))
  }

  /** The events of the first `n` cycles. */
  function Cycles(api: DeviceApi, devices: seq<DeviceConfig>, n: nat): seq<Event> {
    if n == 0 then [] else Cycles(api, devices, n - 1) + CycleEvents(api, devices, n - 1)
  }

  /** The number of cycles that start when the cancellation flag is read
      before each one and the loop runs at most |cancellation| cycles. */
  function CyclesBeforeCancel(cancellation: seq<bool>): (n: nat)
    ensures n <= |cancellation|
    ensures forall k | 0 <= k < n :: !cancellation[k]
    ensures n < |cancellation| ==> cancellation[n]
  {
    if cancellation == [] || cancellation[0] then 0
    else 1 + CyclesBeforeCancel(cancellation[1..])
  }

  /** A flag that reads false, with no true flag before it, lets one more
      cycle start. */
  lemma NotYetCancelled(cancellation: seq<bool>, k: nat)
    requires k <= CyclesBeforeCancel(cancellation) && k < |cancellation| && !cancellation[k]
    ensures k + 1 <= CyclesBeforeCancel(cancellation)
  {
  }

  datatype ConstructionError = NoDevicesConfigured

  datatype Result<T> = Ok(value: T) | Failed(error: ConstructionError)

  /** The constructor's guard on the configured roster. */
  function RosterGuard(configured: Option<seq<DeviceConfig>>): (r: Result<seq<DeviceConfig>>)
    ensures r.Ok? <==> configured.Some? && |configured.value| > 0
    ensures r.Ok? ==> r.value == configured.value && |r.value| > 0
  {
    if configured.None? || |configured.value| == 0 then Failed(NoDevicesConfigured)
    else Ok(configured.value)
  }

  class DeviceMonitorService {
    const api: DeviceApi
    const metrics: MetricsService
    const devices: seq<DeviceConfig>
    /** The gauges as they were when the service was built. */
    ghost const initialGauges: Gauges
    var trace: seq<Event>

    /** The roster is not empty, and the gauges are the initial ones with the
        trace's metric calls applied. */
    ghost predicate Valid()
      reads this, metrics
    {
      && |devices| > 0
      && metrics.Snapshot() == ApplyAll(initialGauges, MetricCalls(trace))
    }

    constructor (api: DeviceApi, metrics: MetricsService, devices: seq<DeviceConfig>)
      requires |devices| > 0
      ensures this.api == api && this.metrics == metrics && this.devices == devices
      ensures trace == [] && initialGauges == metrics.Snapshot()
      ensures Valid()
    {
      this.api := api;
      this.metrics := metrics;
      this.devices := devices;
      this.initialGauges := metrics.Snapshot();
      this.trace := [];
    }

    /** Whatever the service has done, the buffer gauge still holds what it
        held when the service was built: nothing writes it. */
    lemma BufferGaugeUnchanged()
      requires Valid()
      ensures metrics.bufferGauge == initialGauges.buffer
    {
      BufferNeverWritten(initialGauges, MetricCalls(trace));
    }

    /** Builds the service from the configured roster; construction fails when
        the roster is absent or empty. */
    static method Create(api: DeviceApi, metrics: MetricsService, configured: Option<seq<DeviceConfig>>)
      returns (r: Result<DeviceMonitorService>)
      ensures r.Ok? <==> configured.Some? && |configured.value| > 0
      ensures r.Failed? ==> r.error == NoDevicesConfigured
      ensures r.Ok? ==> && fresh(r.value) && r.value.Valid()
                        && r.value.devices == configured.value && |r.value.devices| > 0
                        && r.value.api == api && r.value.metrics == metrics && r.value.trace == []
    {
      match RosterGuard(configured)
      case Failed(e) =>
        r := Failed(e);
      case Ok(roster) =>
        var service := new DeviceMonitorService(api, metrics, roster);
        r := Ok(service);
    }

    /** Appends a log entry or an API call to the trace. */
    method Emit(e: Event)
      requires Valid() && !e.Metric?
      modifies this
      ensures trace == old(trace) + [e]
      ensures Valid()
    {
      MetricCallsSnoc(trace, e);
      Record(e);
    }

    /** Appends an event to the trace, and nothing else. */
    method Record(e: Event)
      modifies this
      ensures trace == old(trace) + [e]
    {
      trace := trace + [e];
    }

    /** Makes a call on the metrics sink and appends it to the trace. */
    method Publish(c: MetricCall)
      requires Valid()
      modifies this, metrics
      ensures trace == old(trace) + [Metric(c)]
      ensures Valid()
    {
      match c {
        case ReportMetrics(name, state) =>
          metrics.ReportMetrics(name, state);
        case SetDeviceStatus(name, ip, isOnline) =>
          metrics.SetDeviceStatus(name, ip, isOnline);
      }
      MetricCallsSnoc(trace, Metric(c));
      ApplyAllSnoc(initialGauges, MetricCalls(trace), c);
      trace := trace + [Metric(c)];
    }

    /** The remediation workflow at moment `at`: appends its calls and log
        entries one at a time and returns its verdict. */
    method PerformDeviceUpdate(device: Option<DeviceConfig>, user: Option<string>, pass: Option<string>, at: Moment)
      returns (success: bool)
      requires Valid()
      modifies this
      ensures Valid()
      ensures success == Remediate(api, device, user, pass, at).success
      ensures trace == old(trace) + Remediate(api, device, user, pass, at).events
    {
      if device.None? {
        Emit(Log(Error, DeviceConfigMissing));
        return false;
      }
      if IsNullOrEmpty(user) {
        Emit(Log(Error, UsernameMissing));
        return false;
      }
      if IsNullOrEmpty(pass) {
        Emit(Log(Error, PasswordMissing));
        return false;
      }
      if IsNullOrEmpty(device.value.ipAddress) {
        Emit(Log(Error, IpAddressMissing));
        return false;
      }
      ghost var events := Reconfigure(api, device.value, user.value, pass.value, at).events;
      success := ReconfigureDevice(device.value, user.value, pass.value, at);
      MetricCallsAppend(old(trace), events);
      NoMetricCalls(events);
      assert MetricCalls(trace) == MetricCalls(old(trace));
    }

    /** The device half of the workflow: authenticate, stop, update and start,
        each call appended as it is made, stopping at the first failure. */
    method ReconfigureDevice(d: DeviceConfig, u: string, p: string, at: Moment) returns (success: bool)
      requires d.ipAddress.Some?
      modifies this
      ensures success == Reconfigure(api, d, u, p, at).success
      ensures trace == old(trace) + Reconfigure(api, d, u, p, at).events
    {
      ghost var r := Reconfigure(api, d, u, p, at);
      var ip := d.ipAddress.value;
      var completion := api.authenticate(ip, u, p, at);
      var auth := Authenticate(ip, u, p, completion);
      Record(auth);
      if completion.Raised? {
        Record(Log(Error, DeviceUpdateError));
        return false;
      }
      var stopped := api.stopStream(ip, at);
      var stop := StopStream(ip, stopped);
      Record(stop);
      if !stopped {
        Record(Log(Warning, StopStreamFailed));
        return false;
      }
      var updated := api.updateConfiguration(ip, d, at);
      var update := UpdateConfiguration(ip, d, updated);
      Record(update);
      if !updated {
        Record(Log(Warning, ConfigurationFailed));
        return false;
      }
      var started := api.startStream(ip, at);
      var start := StartStream(ip, started);
      Record(start);
      if !started {
        Record(Log(Warning, StartStreamFailed));
        return false;
      }
      return true;
    }

    /** Reports a state that came back and marks the device online; a null
        state reports nothing. */
    method ReportState(d: DeviceConfig, state: Option<DeviceState>)
      requires Valid() && !Skipped(d)
      modifies this, metrics
      ensures Valid()
      ensures trace == old(trace) + OnlineReport(d, state)
    {
      if state.Some? {
        var report, online := ReportMetrics(d.name.value, state.value), SetDeviceStatus(d.name.value, d.ipAddress.value, true);
        Publish(report);
        Publish(online);
        assert trace == old(trace) + [Metric(report), Metric(online)];
      }
    }

    /** Logs the workflow's verdict and, after a failure, marks the device
        offline. */
    method RecordVerdict(success: bool, name: string, ip: string)
      requires Valid()
      modifies this, metrics
      ensures Valid()
      ensures trace == old(trace) + Verdict(success, name, ip)
    {
      if success {
        Emit(Log(Information, DeviceUpdated));
      } else {
        Emit(Log(Warning, DeviceUpdateFailed));
        Publish(SetDeviceStatus(name, ip, false));
      }
    }

    /** The unit of work for one roster entry. */
    method ProcessDevice(d: DeviceConfig, at: Moment)
      requires Valid()
      modifies this, metrics
      ensures Valid()
      ensures trace == old(trace) + UnitOfWork(api, d, at)
    {
      if IsNullOrWhiteSpace(d.ipAddress) || IsNullOrWhiteSpace(d.name) {
        Emit(Log(Warning, DeviceSkipped));
        return;
      }
      var ip := d.ipAddress.value;
      var fetched := api.getDeviceState(ip, at);
      var fetch := GetDeviceState(ip, fetched);
      Emit(fetch);
      match fetched
      case Threw(f) =>
        Emit(Log(Warning, FaultMessage(f)));
        AppendAssoc(old(trace), [fetch], [Log(Warning, FaultMessage(f))]);
      case Returned(state) =>
        ghost var r := Remediate(api, Some(d), d.username, d.password, at);
        ReportState(d, state);
        var success := PerformDeviceUpdate(Some(d), d.username, d.password, at);
        RecordVerdict(success, d.name.value, ip);
        AppendAssoc4(old(trace), [fetch], OnlineReport(d, state), r.events, Verdict(r.success, d.name.value, ip));
    }

    /** Pass number `cycle` over the roster, in roster order. */
    method RunCycle(cycle: nat)
      requires Valid()
      modifies this, metrics
      ensures Valid()
      ensures trace == old(trace) + CycleEvents(api, devices, cycle)
    {
      for i := 0 to |devices|
        invariant Valid()
        invariant trace == old(trace) + CycleEvents(api, devices[..i], cycle)
      {
        ghost var before := trace;
        ProcessDevice(devices[i], Moment(cycle, i));
        CycleStep(api, devices, i, cycle, old(trace), before, trace);
      }
      assert devices[..|devices|] == devices;
    }

    /** The monitoring loop: one cycle after another while the cancellation
        flag read before each reads false, at most |cancellation| of them.
        The roster is never empty here, so the warning for an empty one is
        never logged. */
    method Execute(cancellation: seq<bool>) returns (cycles: nat)
      requires Valid()
      modifies this, metrics
      ensures Valid()
      ensures cycles == CyclesBeforeCancel(cancellation)
      ensures trace == old(trace) + Cycles(api, devices, cycles)
    {
      if |devices| == 0 {
        assert false;
      }
      cycles := RunUntilCancelled(cancellation);
    }

    /** Cycles while the cancellation flag read before each reads false. */
    method RunUntilCancelled(cancellation: seq<bool>) returns (cycles: nat)
      requires Valid()
      modifies this, metrics
      ensures Valid()
      ensures cycles == CyclesBeforeCancel(cancellation)
      ensures trace == old(trace) + Cycles(api, devices, cycles)
    {
      cycles := 0;
      while cycles < |cancellation| && !cancellation[cycles]
        invariant Valid()
        invariant cycles <= CyclesBeforeCancel(cancellation)
        invariant trace == old(trace) + Cycles(api, devices, cycles)
      {
        NotYetCancelled(cancellation, cycles);
        ghost var before := trace;
        RunCycle(cycles);
        CyclesStep(api, devices, cycles, old(trace), before, trace);
        cycles := cycles + 1;
      }
    }
  }

  /** The trace after one more roster entry of a cycle. */
  lemma CycleStep(api: DeviceApi, devices: seq<DeviceConfig>, i: nat, cycle: nat, start: seq<Event>,
                  before: seq<Event>, after: seq<Event>)
    requires i < |devices|
    requires before == start + CycleEvents(api, devices[..i], cycle)
    requires after == before + UnitOfWork(api, devices[i], Moment(cycle, i))
    ensures after == start + CycleEvents(api, devices[..i + 1], cycle)
  {
    var prefix := devices[..i + 1];
    assert prefix[..|prefix| - 1] == devices[..i];
    AppendAssoc(start, CycleEvents(api, devices[..i], cycle), UnitOfWork(api, devices[i], Moment(cycle, i)));
  }

  lemma AppendAssoc<T>(a: seq<T>, b: seq<T>, c: seq<T>)
    ensures (a + b) + c == a + (b + c)
  {
  }

  lemma AppendAssoc4<T>(s: seq<T>, a: seq<T>, b: seq<T>, c: seq<T>, d: seq<T>)
    ensures (((s + a) + b) + c) + d == s + (((a + b) + c) + d)
  {
    AppendAssoc(s, a, b);
    AppendAssoc(s, a + b, c);
    AppendAssoc(s, (a + b) + c, d);
  }

  /** The trace after one more cycle. */
  lemma CyclesStep(api: DeviceApi, devices: seq<DeviceConfig>, n: nat, start: seq<Event>, before: seq<Event>,
                   after: seq<Event>)
    requires before == start + Cycles(api, devices, n)
    requires after == before + CycleEvents(api, devices, n)
    ensures after == start + Cycles(api, devices, n + 1)
  {
  }

  lemma {:induction false} NoMetricCalls(es: seq<Event>)
    requires forall e <- es :: !e.Metric?
    ensures MetricCalls(es) == []
    decreases |es|
  {
    if es != [] {
      NoMetricCalls(es[..|es| - 1]);
    }
  }
}
