/** The device API the monitor calls, as an oracle.  HTTP transport is not
    modelled: each of the five operations is a total function that gives the
    result shape the interface declares.  Besides its arguments, every
    operation receives the moment of the call: the monitoring cycle and the
    roster position being processed. A device can therefore answer
    differently in every cycle and for every roster entry. */
module ApiClient {
  import opened Models

  /** When a call is made: the cycle number and the roster position. */
  datatype Moment = Moment(cycle: nat, entry: nat)

  /** The exception families the monitor tells apart. */
  datatype Fault = DeviceOffline | HttpRequestFailed | Unexpected

  /** The outcome of fetching a device's state: a state or null, or an
      exception. */
  datatype FetchResult = Returned(state: Option<DeviceState>) | Threw(fault: Fault)

  /** The outcome of an operation that returns nothing. */
  datatype Completion = Completed | Raised(fault: Fault)

  /** The five remote operations.  Stop, start and configuration updates
      answer with a flag: the concrete client answers true only on
      204 No Content and catches every exception itself. */
  datatype DeviceApi = DeviceApi(
    getDeviceState: (string, Moment) -> FetchResult,
    authenticate: (string, string, string, Moment) -> Completion,
    stopStream: (string, Moment) -> bool,
    updateConfiguration: (string, DeviceConfig, Moment) -> bool,
    startStream: (string, Moment) -> bool)
}
