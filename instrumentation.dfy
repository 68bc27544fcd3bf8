/**
 * The timing object returned by `instrument` (an `InstrumentTiming` of the rpc
 * library). Its counters, traces and log lines are not modelled; the object
 * records which of its closing operations were called, in order.
 */
module Instrumentation {
  import opened Wrappers

  datatype TimingEvent = TimingEnded | SuccessEnded | FailureEnded

  class InstrumentTiming {
    const correlationId: Option<string>
    const name: string
    var events: seq<TimingEvent>

    constructor (correlationId: Option<string>, name: string)
      ensures this.correlationId == correlationId && this.name == name
      ensures events == []
    {
      this.correlationId := correlationId;
      this.name := name;
      events := [];
    }

    method EndTiming()
      modifies this`events
      ensures events == old(events) + [TimingEnded]
    {
      events := events + [TimingEnded];
    }

    method EndSuccess()
      modifies this`events
      ensures events == old(events) + [SuccessEnded]
    {
      events := events + [SuccessEnded];
    }

    method EndFailure()
      modifies this`events
      ensures events == old(events) + [FailureEnded]
    {
      events := events + [FailureEnded];
    }
  }
}
