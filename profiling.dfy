/** The profiler's own records, as far as the exporter and the listener see
    them: the tree of timings a finished profiling session hands over, and
    the live custom-timing objects the listener creates and finishes. */
module Profiling {
  import opened Wrappers

  type Guid = int

  /** A custom timing as the exporter reads it once the session is over. */
  datatype CustomTimingData = CustomTimingData(
    executeType: string,
    commandString: string,
    startMs: real,             // offset from the session start
    durationMs: Option<real>)  // absent while still running

  /** A node of the timing tree. The custom timings are grouped by category
      name, in the order the categories were first used. */
  datatype Timing = Timing(
    name: string,
    startMs: real,
    durationMs: Option<real>,
    children: seq<Timing>,
    customTimings: seq<(string, seq<CustomTimingData>)>)

  /** A finished profiling session; `started` is its start as Unix seconds. */
  datatype MiniProfiler = MiniProfiler(id: Guid, name: string, started: real, root: Timing)

  /** A custom timing while the request runs; the listener and the
      annotation appender update it in place. */
  class CustomTiming {
    const executeType: string
    const startMs: real
    var commandString: string
    var durationMs: Option<real>
    var firstFetchMs: Option<real>
    var errored: bool

    constructor (commandString: string, executeType: string, startMs: real)
      ensures this.commandString == commandString && this.executeType == executeType
      ensures this.startMs == startMs
      ensures durationMs == None && firstFetchMs == None && !errored
    {
      this.commandString := commandString;
      this.executeType := executeType;
      this.startMs := startMs;
      durationMs := None;
      firstFetchMs := None;
      errored := false;
    }

    /** Records the duration, measured at `nowMs`, unless one is recorded. */
    method Stop(nowMs: real)
      modifies this
      ensures StoppedAt(this, nowMs)
    {
      if durationMs.None? {
        durationMs := Some(nowMs - startMs);
      }
    }

    /** Records when the first row came back, unless already recorded. */
    method FirstFetchCompleted(nowMs: real)
      modifies this
      ensures FirstFetchAt(this, nowMs)
    {
      if firstFetchMs.None? {
        firstFetchMs := Some(nowMs - startMs);
      }
    }
  }

  /** `t` has been stopped at `nowMs` and nothing else about it changed. */
  twostate predicate StoppedAt(t: CustomTiming, nowMs: real)
    reads t
  {
    && t.durationMs == (if old(t.durationMs).None? then Some(nowMs - t.startMs) else old(t.durationMs))
    && t.commandString == old(t.commandString)
    && t.firstFetchMs == old(t.firstFetchMs)
    && t.errored == old(t.errored)
  }

  /** `t` has had its first fetch recorded at `nowMs` and nothing else
      about it changed. */
  twostate predicate FirstFetchAt(t: CustomTiming, nowMs: real)
    reads t
  {
    && t.firstFetchMs == (if old(t.firstFetchMs).None? then Some(nowMs - t.startMs) else old(t.firstFetchMs))
    && t.commandString == old(t.commandString)
    && t.durationMs == old(t.durationMs)
    && t.errored == old(t.errored)
  }
}
