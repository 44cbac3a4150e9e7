/** What the monitoring cycle promises, stated over the events it appends:
    when the device API and the metrics sink are called, in what order, and
    what the gauges hold afterwards. */
module MonitorProperties {
  import opened Models
  import opened Metrics
  import opened ApiClient
  import opened DeviceMonitor

  /** What the device answers when the unit of work of `d` fetches its state. */
  function Fetched(api: DeviceApi, d: DeviceConfig, at: Moment): FetchResult
    requires !Skipped(d)
  {
    api.getDeviceState(d.ipAddress.value, at)
  }

  /** The workflow the unit of work of `d` runs, with the entry's own
      credentials. */
  function Workflow(api: DeviceApi, d: DeviceConfig, at: Moment): Outcome {
    Remediate(api, Some(d), d.username, d.password, at)
  }

  /** The unit of work after a fetch that returned, as its four parts. */
  lemma UnitShape(api: DeviceApi, d: DeviceConfig, at: Moment)
    requires !Skipped(d) && Fetched(api, d, at).Returned?
    ensures var r, name, ip := Workflow(api, d, at), d.name.value, d.ipAddress.value;
      UnitOfWork(api, d, at)
        == [GetDeviceState(ip, Fetched(api, d, at))] + OnlineReport(d, Fetched(api, d, at).state) + r.events
           + Verdict(r.success, name, ip)
  {
  }

  /** The workflow's own log entries never claim the update succeeded. */
  lemma WorkflowDoesNotLogVerdict(api: DeviceApi, d: DeviceConfig, at: Moment)
    ensures Log(Information, DeviceUpdated) !in Workflow(api, d, at).events
  {
  }

  // ---------------------------------------------------------------------
  // One unit of work

  /** A roster entry without a usable name or address gets one warning: no
      call on the device and no metric.  Any other entry is fetched first. */
  lemma SkippedEntryIsNotContacted(api: DeviceApi, d: DeviceConfig, at: Moment)
    ensures var u := UnitOfWork(api, d, at);
      && (Skipped(d) <==> forall e <- u :: !e.IsApiCall() && !e.Metric?)
      && (!Skipped(d) ==> u[0] == GetDeviceState(d.ipAddress.value, Fetched(api, d, at)))
  {
    var u := UnitOfWork(api, d, at);
    if !Skipped(d) {
      assert u[0] == GetDeviceState(d.ipAddress.value, Fetched(api, d, at));
      assert u[0].IsApiCall();
    }
  }

  /** A fetch that raises is logged and ends the unit: no metric and no
      workflow. */
  lemma FetchFaultEndsUnit(api: DeviceApi, d: DeviceConfig, at: Moment)
    requires !Skipped(d) && Fetched(api, d, at).Threw?
    ensures UnitOfWork(api, d, at)
         == [GetDeviceState(d.ipAddress.value, Fetched(api, d, at)), Log(Warning, FaultMessage(Fetched(api, d, at).fault))]
    ensures forall e <- UnitOfWork(api, d, at) :: !e.Metric? && !e.Authenticate?
  {
  }

  /** A state that came back is reported, and the device marked online, once
      each and before the workflow authenticates. */
  lemma StateReportedBeforeWorkflow(api: DeviceApi, d: DeviceConfig, at: Moment, s: DeviceState)
    requires !Skipped(d) && Fetched(api, d, at) == Returned(Some(s))
    ensures var u, name, ip := UnitOfWork(api, d, at), d.name.value, d.ipAddress.value;
      && |u| > 3
      && u[1] == Metric(ReportMetrics(name, s))
      && u[2] == Metric(SetDeviceStatus(name, ip, true))
      && multiset(u)[Metric(ReportMetrics(name, s))] == 1
      && multiset(u)[Metric(SetDeviceStatus(name, ip, true))] == 1
      && forall j | 0 <= j < |u| && u[j].Authenticate? :: j > 2
  {
    var r, name, ip := Workflow(api, d, at), d.name.value, d.ipAddress.value;
    UnitShape(api, d, at);
    ReportedAtFront(GetDeviceState(ip, Fetched(api, d, at)),
                    Metric(ReportMetrics(name, s)), Metric(SetDeviceStatus(name, ip, true)), r.events,
                    Verdict(r.success, name, ip));
  }

  lemma ReportedAtFront(fetch: Event, report: Event, online: Event, es: seq<Event>, verdict: seq<Event>)
    requires !fetch.Metric? && !fetch.Authenticate? && report.Metric? && online.Metric? && report != online
    requires es != [] && forall e <- es :: !e.Metric?
    requires report !in verdict && online !in verdict && forall e <- verdict :: !e.Authenticate?
    ensures var u := [fetch] + [report, online] + es + verdict;
      && |u| > 3 && u[1] == report && u[2] == online
      && multiset(u)[report] == 1 && multiset(u)[online] == 1
      && forall j | 0 <= j < |u| && u[j].Authenticate? :: j > 2
  {
    var u := [fetch] + [report, online] + es + verdict;
    assert u == [fetch, report, online] + es + verdict;
    assert report !in es && online !in es;
    assert multiset(es)[report] == 0 && multiset(es)[online] == 0;
  }

  /** Inside the cycle the workflow's device and address checks never fail:
      the skip test has already passed over every entry they would reject. */
  lemma CycleNeverTripsAddressCheck(api: DeviceApi, d: DeviceConfig, at: Moment)
    ensures Log(Error, DeviceConfigMissing) !in UnitOfWork(api, d, at)
    ensures Log(Error, IpAddressMissing) !in UnitOfWork(api, d, at)
  {
    if !Skipped(d) && Fetched(api, d, at).Returned? {
      var r, name, ip := Workflow(api, d, at), d.name.value, d.ipAddress.value;
      UnitShape(api, d, at);
      WorkflowPassesAddressCheck(api, d, at);
      AbsentFromParts(Log(Error, DeviceConfigMissing), GetDeviceState(ip, Fetched(api, d, at)),
                      OnlineReport(d, Fetched(api, d, at).state), r.events, Verdict(r.success, name, ip));
      AbsentFromParts(Log(Error, IpAddressMissing), GetDeviceState(ip, Fetched(api, d, at)),
                      OnlineReport(d, Fetched(api, d, at).state), r.events, Verdict(r.success, name, ip));
    }
  }

  lemma WorkflowPassesAddressCheck(api: DeviceApi, d: DeviceConfig, at: Moment)
    requires !IsNullOrEmpty(d.ipAddress)
    ensures Log(Error, DeviceConfigMissing) !in Workflow(api, d, at).events
    ensures Log(Error, IpAddressMissing) !in Workflow(api, d, at).events
  {
  }

  lemma AbsentFromParts(x: Event, fetch: Event, online: seq<Event>, es: seq<Event>, verdict: seq<Event>)
    requires x.Log? && x.level == Error && !fetch.Log? && x !in es
    requires forall e <- online :: e.Metric?
    requires forall e <- verdict :: !e.Log? || e.level != Error
    ensures x !in [fetch] + online + es + verdict
  {
  }

  /** A null state reports nothing and marks nothing online: the only metric
      the unit may make is the offline mark. */
  lemma NullStateReportsNothing(api: DeviceApi, d: DeviceConfig, at: Moment)
    requires !Skipped(d) && Fetched(api, d, at) == Returned(None)
    ensures forall e <- UnitOfWork(api, d, at) :: e.Metric? ==>
              e.call == SetDeviceStatus(d.name.value, d.ipAddress.value, false)
  {
    UnitShape(api, d, at);
  }

  /** After a fetch that returned, a failed workflow is logged and the device
      marked offline exactly once, as the last call of the unit; a successful
      one is logged and marks nothing offline. */
  lemma FailedUpdateMarksOffline(api: DeviceApi, d: DeviceConfig, at: Moment)
    requires !Skipped(d) && Fetched(api, d, at).Returned?
    ensures var u, r := UnitOfWork(api, d, at), Workflow(api, d, at);
      var offline := Metric(SetDeviceStatus(d.name.value, d.ipAddress.value, false));
      && multiset(u)[offline] == (if r.success then 0 else 1)
      && (r.success <==> Log(Information, DeviceUpdated) in u)
      && (r.success ==> u[|u| - 1] == Log(Information, DeviceUpdated))
      && (!r.success ==> |u| >= 2 && u[|u| - 2..] == [Log(Warning, DeviceUpdateFailed), offline])
  {
    var r, name, ip := Workflow(api, d, at), d.name.value, d.ipAddress.value;
    var online := OnlineReport(d, Fetched(api, d, at).state);
    UnitShape(api, d, at);
    var offline := Metric(SetDeviceStatus(name, ip, false));
    assert offline !in online && Log(Information, DeviceUpdated) !in online;
    WorkflowDoesNotLogVerdict(api, d, at);
    VerdictAtEnd([GetDeviceState(ip, Fetched(api, d, at))] + online, r.events, r.success, name, ip);
  }

  lemma VerdictAtEnd(head: seq<Event>, es: seq<Event>, success: bool, name: string, ip: string)
    requires forall e <- es :: !e.Metric? && e != Log(Information, DeviceUpdated)
    requires Metric(SetDeviceStatus(name, ip, false)) !in head && Log(Information, DeviceUpdated) !in head
    ensures var u, offline := head + es + Verdict(success, name, ip), Metric(SetDeviceStatus(name, ip, false));
      && multiset(u)[offline] == (if success then 0 else 1)
      && (success <==> Log(Information, DeviceUpdated) in u)
      && (success ==> u[|u| - 1] == Log(Information, DeviceUpdated))
      && (!success ==> |u| >= 2 && u[|u| - 2..] == [Log(Warning, DeviceUpdateFailed), offline])
  {
    var offline, done, failed := Metric(SetDeviceStatus(name, ip, false)), Log(Information, DeviceUpdated),
                                 Log(Warning, DeviceUpdateFailed);
    var before := head + es;
    assert offline !in es && done !in es;
    assert offline !in before && done !in before;
    assert multiset(before)[offline] == 0;
    if success {
      var u := before + [done];
      assert multiset(u) == multiset(before) + multiset([done]);
    } else {
      var u := before + [failed, offline];
      assert multiset(u) == multiset(before) + multiset([failed, offline]);
      assert u[|u| - 2..] == [failed, offline];
      assert done != failed && done != offline;
    }
  }

  /** The metric calls of a unit of work after a fetch that returned: those
      of its online report, then those of its verdict. */
  lemma UnitMetricCalls(api: DeviceApi, d: DeviceConfig, at: Moment)
    requires !Skipped(d) && Fetched(api, d, at).Returned?
    ensures var r, name, ip := Workflow(api, d, at), d.name.value, d.ipAddress.value;
      var state := Fetched(api, d, at).state;
      MetricCalls(UnitOfWork(api, d, at))
        == (if state.Some? then [ReportMetrics(name, state.value), SetDeviceStatus(name, ip, true)] else [])
           + (if r.success then [] else [SetDeviceStatus(name, ip, false)])
  {
    var r, name, ip := Workflow(api, d, at), d.name.value, d.ipAddress.value;
    UnitShape(api, d, at);
    CallsOfParts(GetDeviceState(ip, Fetched(api, d, at)), Fetched(api, d, at).state, r.events, r.success, name, ip);
  }

  lemma CallsOfParts(fetch: Event, state: Option<DeviceState>, es: seq<Event>, success: bool, name: string, ip: string)
    requires !fetch.Metric? && forall e <- es :: !e.Metric?
    ensures var online := if state.Some? then [Metric(ReportMetrics(name, state.value)), Metric(SetDeviceStatus(name, ip, true))]
                          else [];
      MetricCalls([fetch] + online + es + Verdict(success, name, ip))
        == (if state.Some? then [ReportMetrics(name, state.value), SetDeviceStatus(name, ip, true)] else [])
           + (if success then [] else [SetDeviceStatus(name, ip, false)])
  {
    var online := if state.Some? then [Metric(ReportMetrics(name, state.value)), Metric(SetDeviceStatus(name, ip, true))]
                  else [];
    var verdict := Verdict(success, name, ip);
    var onlineCalls := if state.Some? then [ReportMetrics(name, state.value), SetDeviceStatus(name, ip, true)] else [];
    var start, worked := [fetch] + online, [fetch] + online + es;
    NoMetricCalls([fetch]);
    ReportCalls(state, name, ip);
    MetricCallsAppend([fetch], online);
    assert MetricCalls(start) == onlineCalls;
    NoMetricCalls(es);
    MetricCallsAppend(start, es);
    assert MetricCalls(worked) == onlineCalls;
    VerdictCalls(success, name, ip);
    MetricCallsAppend(worked, verdict);
  }

  lemma ReportCalls(state: Option<DeviceState>, name: string, ip: string)
    ensures var online := if state.Some? then [Metric(ReportMetrics(name, state.value)), Metric(SetDeviceStatus(name, ip, true))]
                          else [];
      MetricCalls(online) == if state.Some? then [ReportMetrics(name, state.value), SetDeviceStatus(name, ip, true)] else []
  {
    if state.Some? {
      var report, mark := Metric(ReportMetrics(name, state.value)), Metric(SetDeviceStatus(name, ip, true));
      MetricCallsSnoc([report], mark);
      MetricCallsSnoc([], report);
      assert [report] == [] + [report];
      assert [report, mark] == [report] + [mark];
    }
  }

  lemma VerdictCalls(success: bool, name: string, ip: string)
    ensures MetricCalls(Verdict(success, name, ip)) == if success then [] else [SetDeviceStatus(name, ip, false)]
  {
    var verdict := Verdict(success, name, ip);
    if success {
      NoMetricCalls(verdict);
    } else {
      MetricCallsSnoc([verdict[0]], verdict[1]);
      NoMetricCalls([verdict[0]]);
      assert verdict == [verdict[0]] + [verdict[1]];
    }
  }

  /** The unit's online mark: after a failed workflow the device is offline;
      after a successful one it is online if a state came back and untouched
      if none did. */
  lemma OnlineGaugeAfterUnit(g: Gauges, api: DeviceApi, d: DeviceConfig, at: Moment)
    requires !Skipped(d) && Fetched(api, d, at).Returned?
    ensures var key := (d.name.value, d.ipAddress.value);
      var online := ApplyAll(g, MetricCalls(UnitOfWork(api, d, at))).online;
      && (!Workflow(api, d, at).success ==> key in online && online[key] == 0)
      && (Workflow(api, d, at).success && Fetched(api, d, at).state.Some? ==> key in online && online[key] == 1)
      && (Workflow(api, d, at).success && Fetched(api, d, at).state.None? ==>
            (key in online <==> key in g.online) && (key in online ==> online[key] == g.online[key]))
  {
    UnitMetricCalls(api, d, at);
    OnlineAfterCalls(g, d.name.value, d.ipAddress.value, Fetched(api, d, at).state, Workflow(api, d, at).success);
  }

  lemma OnlineAfterCalls(g: Gauges, name: string, ip: string, state: Option<DeviceState>, success: bool)
    ensures var key := (name, ip);
      var cs := (if state.Some? then [ReportMetrics(name, state.value), SetDeviceStatus(name, ip, true)] else [])
                + (if success then [] else [SetDeviceStatus(name, ip, false)]);
      var online := ApplyAll(g, cs).online;
      && (!success ==> key in online && online[key] == 0)
      && (success && state.Some? ==> key in online && online[key] == 1)
      && (success && state.None? ==> (key in online <==> key in g.online) && (key in online ==> online[key] == g.online[key]))
  {
    var key := (name, ip);
    var onlineCalls := if state.Some? then [ReportMetrics(name, state.value), SetDeviceStatus(name, ip, true)] else [];
    var cs := onlineCalls + (if success then [] else [SetDeviceStatus(name, ip, false)]);
    OnlineGaugeIsLastWrite(g, cs, key);
    if !success {
      assert cs[|cs| - 1] == SetDeviceStatus(name, ip, false);
    } else if state.Some? {
      assert cs == onlineCalls;
      assert cs[..|cs| - 1] == [ReportMetrics(name, state.value)];
    } else {
      assert cs == [];
    }
  }

  /** Every device call of a unit goes to the entry's address, and every
      metric carries the entry's name (and address, for the online mark). */
  lemma UnitTargetsItsDevice(api: DeviceApi, d: DeviceConfig, at: Moment)
    ensures forall e <- UnitOfWork(api, d, at) ::
              && (e.IsApiCall() ==> !Skipped(d) && e.ip == d.ipAddress.value)
              && (e.Metric? ==> !Skipped(d) && e.call.deviceName == d.name.value)
              && (e.Metric? && e.call.SetDeviceStatus? ==> e.call.ip == d.ipAddress.value)
  {
    if !Skipped(d) && Fetched(api, d, at).Returned? {
      UnitShape(api, d, at);
      RemediateWellOrdered(api, Some(d), d.username, d.password, at);
    }
  }

  /** Every device call of a unit holds what the device answered, and the
      dependent steps of the workflow come each right after the step that
      allowed it. */
  lemma UnitWellOrdered(api: DeviceApi, d: DeviceConfig, at: Moment)
    ensures ConsistentWith(api, UnitOfWork(api, d, at), at)
    ensures Chained(UnitOfWork(api, d, at))
  {
    if !Skipped(d) && Fetched(api, d, at).Returned? {
      var r, name, ip := Workflow(api, d, at), d.name.value, d.ipAddress.value;
      UnitShape(api, d, at);
      RemediateWellOrdered(api, Some(d), d.username, d.password, at);
      PartsWellOrdered(api, at, GetDeviceState(ip, Fetched(api, d, at)), OnlineReport(d, Fetched(api, d, at).state),
                       r.events, Verdict(r.success, name, ip));
    }
  }

  lemma PartsWellOrdered(api: DeviceApi, at: Moment, fetch: Event, online: seq<Event>, es: seq<Event>, verdict: seq<Event>)
    requires Answered(api, fetch, at) && !IsDependentStep(fetch)
    requires forall e <- online :: e.Metric?
    requires forall e <- verdict :: e.Metric? || e.Log?
    requires WellOrdered(es) && ConsistentWith(api, es, at) && (es != [] ==> !IsDependentStep(es[0]))
    ensures ConsistentWith(api, [fetch] + online + es + verdict, at)
    ensures Chained([fetch] + online + es + verdict)
  {
    NoDependentStep([fetch] + online);
    NoDependentStep(verdict);
    ChainedAppend([fetch] + online, es);
    ChainedAppend([fetch] + online + es, verdict);
    var u := [fetch] + online + es + verdict;
    forall i | 0 <= i < |u|
      ensures Answered(api, u[i], at)
    {
      if i == 0 {
      } else if i < 1 + |online| {
        assert u[i] == online[i - 1];
        assert u[i] in online;
      } else if i < 1 + |online| + |es| {
        assert u[i] == es[i - 1 - |online|];
      } else {
        assert u[i] == verdict[i - 1 - |online| - |es|];
        assert u[i] in verdict;
      }
    }
  }

  // ---------------------------------------------------------------------
  // Dependency order over whole traces

  /** Well ordered, and not opening with a step that depends on an earlier
      one: such traces can be concatenated safely. */
  predicate Chained(es: seq<Event>) {
    WellOrdered(es) && (es != [] ==> !IsDependentStep(es[0]))
  }

  lemma NoDependentStep(es: seq<Event>)
    requires forall e <- es :: !IsDependentStep(e)
    ensures Chained(es)
  {
    forall j | 0 <= j < |es|
      ensures StepAllowed(es, j)
    {
      assert es[j] in es;
    }
  }

  lemma ChainedAppend(a: seq<Event>, b: seq<Event>)
    requires Chained(a) && Chained(b)
    ensures Chained(a + b)
  {
    var ab := a + b;
    forall j | 0 <= j < |ab|
      ensures StepAllowed(ab, j)
    {
      if j < |a| {
        assert StepAllowed(a, j);
        assert ab[j] == a[j];
        if j > 0 {
          assert ab[j - 1] == a[j - 1];
        }
      } else {
        assert StepAllowed(b, j - |a|);
        assert ab[j] == b[j - |a|];
        if j > |a| {
          assert ab[j - 1] == b[j - |a| - 1];
        }
      }
    }
  }

  lemma ChainedJoin(a: seq<Event>, b: seq<Event>, joined: seq<Event>)
    requires Chained(a) && Chained(b) && joined == a + b
    ensures Chained(joined)
  {
    ChainedAppend(a, b);
  }

  /** Over a whole pass over the roster, a stop comes only right after an
      authentication that completed, an update only right after a stop that
      returned true, a start only right after an update that returned
      true. */
  lemma {:induction false} CycleWellOrdered(api: DeviceApi, devices: seq<DeviceConfig>, cycle: nat)
    ensures Chained(CycleEvents(api, devices, cycle))
    decreases |devices|
  {
    if devices != [] {
      var n := |devices| - 1;
      CycleWellOrdered(api, devices[..n], cycle);
      UnitWellOrdered(api, devices[n], Moment(cycle, n));
      ChainedAppend(CycleEvents(api, devices[..n], cycle), UnitOfWork(api, devices[n], Moment(cycle, n)));
    }
  }

  /** The same over any number of cycles. */
  lemma {:induction false} CyclesWellOrdered(api: DeviceApi, devices: seq<DeviceConfig>, n: nat)
    ensures Chained(Cycles(api, devices, n))
  {
    if n > 0 {
      CyclesWellOrdered(api, devices, n - 1);
      OneMoreCycleChained(api, devices, n - 1);
    }
  }

  lemma OneMoreCycleChained(api: DeviceApi, devices: seq<DeviceConfig>, k: nat)
    requires Chained(Cycles(api, devices, k))
    ensures Chained(Cycles(api, devices, k + 1))
  {
    CycleWellOrdered(api, devices, k);
    ChainedJoin(Cycles(api, devices, k), CycleEvents(api, devices, k), Cycles(api, devices, k + 1));
  }

  // ---------------------------------------------------------------------
  // Roster coverage

  /** The events that open a unit of work, in order. */
  function Visits(es: seq<Event>): seq<Event> {
    if es == [] then []
    else Visits(es[..|es| - 1]) + if IsVisit(es[|es| - 1]) then [es[|es| - 1]] else []
  }

  lemma {:induction false} VisitsAppend(a: seq<Event>, b: seq<Event>)
    ensures Visits(a + b) == Visits(a) + Visits(b)
    decreases |b|
  {
    if b == [] {
      assert a + b == a;
    } else {
      assert (a + b)[..|a + b| - 1] == a + b[..|b| - 1];
      VisitsAppend(a, b[..|b| - 1]);
    }
  }

  lemma {:induction false} NoVisits(es: seq<Event>)
    requires forall e <- es :: !IsVisit(e)
    ensures Visits(es) == []
    decreases |es|
  {
    if es != [] {
      NoVisits(es[..|es| - 1]);
    }
  }

  /** How the unit of work of `d` opens: the skip warning, or the fetch of
      its state with what the device answered. */
  function Visit(api: DeviceApi, d: DeviceConfig, at: Moment): Event {
    if Skipped(d) then Log(Warning, DeviceSkipped)
    else GetDeviceState(d.ipAddress.value, Fetched(api, d, at))
  }

  lemma UnitVisitsOnce(api: DeviceApi, d: DeviceConfig, at: Moment)
    ensures Visits(UnitOfWork(api, d, at)) == [Visit(api, d, at)]
  {
    var u := UnitOfWork(api, d, at);
    if Skipped(d) {
      assert Visits(u) == Visits([]) + [u[0]];
    } else if Fetched(api, d, at).Threw? {
      PartsVisits(u[0], [], [], [u[1]]);
      assert u == [u[0]] + [] + [] + [u[1]];
    } else {
      var r, name, ip := Workflow(api, d, at), d.name.value, d.ipAddress.value;
      UnitShape(api, d, at);
      PartsVisits(GetDeviceState(ip, Fetched(api, d, at)), OnlineReport(d, Fetched(api, d, at).state),
                  r.events, Verdict(r.success, name, ip));
    }
  }

  lemma PartsVisits(fetch: Event, online: seq<Event>, es: seq<Event>, verdict: seq<Event>)
    requires IsVisit(fetch)
    requires forall e <- online :: !IsVisit(e)
    requires forall e <- es :: !IsVisit(e)
    requires forall e <- verdict :: !IsVisit(e)
    ensures Visits([fetch] + online + es + verdict) == [fetch]
  {
    VisitsAppend([fetch], online);
    VisitsAppend([fetch] + online, es);
    VisitsAppend([fetch] + online + es, verdict);
    assert Visits([fetch]) == Visits([]) + [fetch];
    NoVisits(online);
    NoVisits(es);
    NoVisits(verdict);
  }

  /** A pass over the roster visits every entry exactly once, in roster
      order: its i-th visit is that of the i-th entry. */
  lemma {:induction false} CycleVisitsRosterInOrder(api: DeviceApi, devices: seq<DeviceConfig>, cycle: nat)
    ensures var v := Visits(CycleEvents(api, devices, cycle));
      && |v| == |devices|
      && forall i | 0 <= i < |devices| :: v[i] == Visit(api, devices[i], Moment(cycle, i))
    decreases |devices|
  {
    if devices != [] {
      CycleVisitsRosterInOrder(api, devices[..|devices| - 1], cycle);
      OneMoreEntryVisited(api, devices, cycle);
    }
  }

  lemma OneMoreEntryVisited(api: DeviceApi, devices: seq<DeviceConfig>, cycle: nat)
    requires devices != []
    requires var v := Visits(CycleEvents(api, devices[..|devices| - 1], cycle));
      && |v| == |devices[..|devices| - 1]|
      && forall i | 0 <= i < |devices[..|devices| - 1]| :: v[i] == Visit(api, devices[..|devices| - 1][i], Moment(cycle, i))
    ensures var v := Visits(CycleEvents(api, devices, cycle));
      && |v| == |devices|
      && forall i | 0 <= i < |devices| :: v[i] == Visit(api, devices[i], Moment(cycle, i))
  {
    var n := |devices| - 1;
    var before, unit := CycleEvents(api, devices[..n], cycle), UnitOfWork(api, devices[n], Moment(cycle, n));
    assert CycleEvents(api, devices, cycle) == before + unit;
    VisitsAppend(before, unit);
    UnitVisitsOnce(api, devices[n], Moment(cycle, n));
    VisitsExtend(api, devices, cycle, Visits(before));
  }

  lemma VisitsExtend(api: DeviceApi, devices: seq<DeviceConfig>, cycle: nat, v: seq<Event>)
    requires |v| == |devices| - 1
    requires forall i | 0 <= i < |devices[..|v|]| :: v[i] == Visit(api, devices[..|v|][i], Moment(cycle, i))
    ensures var w := v + [Visit(api, devices[|v|], Moment(cycle, |v|))];
      && |w| == |devices|
      && forall i | 0 <= i < |devices| :: w[i] == Visit(api, devices[i], Moment(cycle, i))
  {
  }
}
