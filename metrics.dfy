/** The metrics sink: four labelled gauges that the monitor overwrites.  The
    Prometheus registry is replaced by plain maps from label to value; a gauge
    that was never set for a label has no entry. */
module Metrics {
  import opened Models

  /** The value of the status gauge for a status label reported by a device. */
  function StatusValue(status: string): (v: int)
    ensures v == 1 <==> status == "Idle"
    ensures v == 2 <==> status == "Streaming"
    ensures v == -1 <==> status == "Interrupted"
    ensures v == 0 <==> status !in {"Idle", "Streaming", "Interrupted"}
  {
    match status
    case "Idle" => 1
    case "Streaming" => 2
    case "Interrupted" => -1
    case _ => 0
  }

  /** The value of the online gauge. */
  function OnlineValue(isOnline: bool): (v: int)
    ensures v == 1 <==> isOnline
    ensures v == 0 <==> !isOnline
  {
    if isOnline then 1 else 0
  }

  /** A snapshot of the four gauges: status, bitrate and buffer are labelled by
      device name, online by device name and address. */
  datatype Gauges = Gauges(
    status: map<string, int>,
    bitrate: map<string, int>,
    buffer: map<string, int>,
    online: map<(string, string), int>)

  const NoGauges := Gauges(map[], map[], map[], map[])

  /** A call into the sink, as the monitor makes it. */
  datatype MetricCall =
    | ReportMetrics(deviceName: string, state: DeviceState)
    | SetDeviceStatus(deviceName: string, ip: string, isOnline: bool)

  /** The effect of one call on the gauges.  As the source is written,
      ReportMetrics stores the buffer percentage in the bitrate gauge, and no
      call writes the buffer gauge. */
  function Apply(g: Gauges, c: MetricCall): (r: Gauges)
    ensures r.buffer == g.buffer
    ensures c.ReportMetrics? ==> r.online == g.online && c.deviceName in r.status && c.deviceName in r.bitrate
    ensures c.SetDeviceStatus? ==> r.status == g.status && r.bitrate == g.bitrate && (c.deviceName, c.ip) in r.online
  {
    match c
    case ReportMetrics(name, state) =>
      g.(status := g.status[name := StatusValue(state.status)],
         bitrate := g.bitrate[name := state.bufferPct as int])
    case SetDeviceStatus(name, ip, isOnline) =>
      g.(online := g.online[(name, ip) := OnlineValue(isOnline)])
  }

  /** The effect of a sequence of calls, in order. */
  function ApplyAll(g: Gauges, cs: seq<MetricCall>): Gauges {
    if cs == [] then g else Apply(ApplyAll(g, cs[..|cs| - 1]), cs[|cs| - 1])
  }

  lemma ApplyAllSnoc(g: Gauges, cs: seq<MetricCall>, c: MetricCall)
    ensures ApplyAll(g, cs + [c]) == Apply(ApplyAll(g, cs), c)
  {
    assert (cs + [c])[..|cs|] == cs;
  }

  lemma {:induction false} ApplyAllAppend(g: Gauges, a: seq<MetricCall>, b: seq<MetricCall>)
    ensures ApplyAll(g, a + b) == ApplyAll(ApplyAll(g, a), b)
    decreases |b|
  {
    if b == [] {
      assert a + b == a;
    } else {
      assert (a + b)[..|a + b| - 1] == a + b[..|b| - 1];
      ApplyAllAppend(g, a, b[..|b| - 1]);
    }
  }

  /** Gauges are overwritten, not accumulated: repeating a call changes
      nothing. */
  lemma ApplyIdempotent(g: Gauges, c: MetricCall)
    ensures Apply(Apply(g, c), c) == Apply(g, c)
  {
  }

  /** No call ever writes the buffer gauge. */
  lemma {:induction false} BufferNeverWritten(g: Gauges, cs: seq<MetricCall>)
    ensures ApplyAll(g, cs).buffer == g.buffer
    decreases |cs|
  {
    if cs != [] {
      BufferNeverWritten(g, cs[..|cs| - 1]);
    }
  }

  /** The last SetDeviceStatus for the label pair `key`, if any. */
  function LastOnlineWrite(cs: seq<MetricCall>, key: (string, string)): Option<bool> {
    if cs == [] then None
    else
      var c := cs[|cs| - 1];
      if c.SetDeviceStatus? && (c.deviceName, c.ip) == key then Some(c.isOnline)
      else LastOnlineWrite(cs[..|cs| - 1], key)
  }

  /** The last state reported for the device name `name`, if any. */
  function LastReport(cs: seq<MetricCall>, name: string): Option<DeviceState> {
    if cs == [] then None
    else
      var c := cs[|cs| - 1];
      if c.ReportMetrics? && c.deviceName == name then Some(c.state)
      else LastReport(cs[..|cs| - 1], name)
  }

  /** The online gauge of a label pair holds the value of the last
      SetDeviceStatus for that pair; with none, it keeps its initial
      value. */
  lemma {:induction false} OnlineGaugeIsLastWrite(g: Gauges, cs: seq<MetricCall>, key: (string, string))
    ensures var r := ApplyAll(g, cs).online;
      match LastOnlineWrite(cs, key)
      case Some(b) => key in r && r[key] == OnlineValue(b)
      case None => (key in r <==> key in g.online) && (key in r ==> r[key] == g.online[key])
    decreases |cs|
  {
    if cs != [] {
      OnlineGaugeIsLastWrite(g, cs[..|cs| - 1], key);
    }
  }

  /** The status and bitrate gauges of a device name hold what the last
      ReportMetrics for that name wrote; with none, they keep their initial
      values. */
  lemma {:induction false} StatusGaugeIsLastReport(g: Gauges, cs: seq<MetricCall>, name: string)
    ensures var r := ApplyAll(g, cs);
      match LastReport(cs, name)
      case Some(s) =>
        && name in r.status && r.status[name] == StatusValue(s.status)
        && name in r.bitrate && r.bitrate[name] == s.bufferPct as int
      case None =>
        && (name in r.status <==> name in g.status) && (name in r.status ==> r.status[name] == g.status[name])
        && (name in r.bitrate <==> name in g.bitrate) && (name in r.bitrate ==> r.bitrate[name] == g.bitrate[name])
    decreases |cs|
  {
    if cs != [] {
      StatusGaugeIsLastReport(g, cs[..|cs| - 1], name);
    }
  }

  /** The gauge tables of the sink, overwritten in place. */
  class MetricsService {
    var statusGauge: map<string, int>
    var bitrateGauge: map<string, int>
    var bufferGauge: map<string, int>
    var deviceOnline: map<(string, string), int>

    function Snapshot(): Gauges
      reads this
    {
      Gauges(statusGauge, bitrateGauge, bufferGauge, deviceOnline)
    }

    constructor ()
      ensures Snapshot() == NoGauges
    {
      statusGauge, bitrateGauge, bufferGauge, deviceOnline := map[], map[], map[], map[];
    }

    /** Sets the online gauge of (deviceName, ip) to 1 or 0. */
    method SetDeviceStatus(deviceName: string, ip: string, isOnline: bool)
      modifies this
      ensures deviceOnline == old(deviceOnline)[(deviceName, ip) := OnlineValue(isOnline)]
      ensures statusGauge == old(statusGauge) && bitrateGauge == old(bitrateGauge)
      ensures bufferGauge == old(bufferGauge)
      ensures Snapshot() == Apply(old(Snapshot()), MetricCall.SetDeviceStatus(deviceName, ip, isOnline))
    {
      deviceOnline := deviceOnline[(deviceName, ip) := OnlineValue(isOnline)];
    }

    /** Sets the status gauge of deviceName from the reported status label,
        and its bitrate gauge to the reported buffer percentage. */
    method ReportMetrics(deviceName: string, state: DeviceState)
      modifies this
      ensures statusGauge == old(statusGauge)[deviceName := StatusValue(state.status)]
      ensures bitrateGauge == old(bitrateGauge)[deviceName := state.bufferPct as int]
      ensures bufferGauge == old(bufferGauge) && deviceOnline == old(deviceOnline)
      ensures Snapshot() == Apply(old(Snapshot()), MetricCall.ReportMetrics(deviceName, state))
    {
      statusGauge := statusGauge[deviceName := StatusValue(state.status)];
      bitrateGauge := bitrateGauge[deviceName := state.bufferPct as int];
    }
  }
}
