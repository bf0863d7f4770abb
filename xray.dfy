/** The parts of an AWS X-Ray segment document the exporter fills in. The
    X-Ray SDK builds these as mutable entity objects; here they are values,
    built bottom-up. Times are Unix seconds. */
module XRay {
  import opened Wrappers
  import opened Json

  /** A subsegment: one timing of the profiling tree, or one SQL command.
      `annotations` lists the annotation calls in the order they were made. */
  datatype Subsegment = Subsegment(
    name: string,
    startTime: real,
    endTime: Option<real>,              // absent while the timing runs
    namespace: Option<string>,          // "remote" for SQL commands
    sanitizedQuery: Option<string>,     // the `sql.sanitized_query` field
    annotations: seq<(string, Value)>,
    subsegments: seq<Subsegment>)

  /** The `http.request` attributes. */
  datatype RequestAttributes = RequestAttributes(
    url: string,
    requestMethod: string,
    clientIp: Option<string>,
    xForwardedFor: bool,                // present (and true) only when the client ip came from the header
    userAgent: Option<string>)

  /** The `http.response` attributes. */
  datatype ResponseAttributes = ResponseAttributes(status: int, contentLength: Option<int>)

  datatype HttpAttributes = HttpAttributes(request: RequestAttributes, response: ResponseAttributes)

  /** The top-level segment sent for one profiling session. */
  datatype TraceDocument = TraceDocument(
    name: string,
    traceId: string,
    startTime: real,
    endTime: Option<real>,
    inProgress: bool,
    hasError: bool,
    hasFault: bool,
    isThrottled: bool,
    http: Option<HttpAttributes>,
    subsegments: seq<Subsegment>)

  /** A segment as the SDK creates it from a name and a trace id: in progress,
      no flags, no HTTP block and no subsegments yet. */
  function NewSegment(name: string, traceId: string, startTime: real, endTime: Option<real>): (t: TraceDocument)
    ensures t.name == name && t.traceId == traceId
    ensures t.startTime == startTime && t.endTime == endTime
    ensures t.inProgress && !t.hasError && !t.hasFault && !t.isThrottled
    ensures t.http.None? && t.subsegments == []
  {
    TraceDocument(name, traceId, startTime, endTime, true, false, false, false, None, [])
  }

  /** The end time of an entity that started at `start`, given a duration in
      milliseconds; no end while the duration is unknown. */
  function EndTime(start: real, durationMs: Option<real>): (r: Option<real>)
    ensures r.Some? <==> durationMs.Some?
    ensures r.Some? ==> (r.value - start) * 1000.0 == durationMs.value
  {
    match durationMs
    case None => None
    case Some(d) => Some(start + d / 1000.0)
  }
}
