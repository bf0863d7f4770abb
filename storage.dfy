/** The storage the profiler hands finished sessions to: it converts each
    session into one X-Ray trace document and sends it, at most once per
    session id while the id is remembered. */
module Storage {
  import opened Wrappers
  import opened Profiling
  import opened XRay
  import opened TraceId
  import opened Http
  import opened Converter
  import opened SentLog

  /** The document `Save` sends for `profiler`, or the exception it throws:
      a segment named after the service, with the trace id of the session
      start, starting at the session start plus the root's offset and ending
      after the root's duration (if known), with the HTTP block, and with one
      subsegment named after the session that holds the subsegments of the
      root's children. The root's own custom timings are not exported. */
  function Export(profiler: MiniProfiler, serviceName: string, provider: Option<ServiceProvider>, random: string): Result<TraceDocument, Exception> {
    var traceId :- NewId(profiler.started, random);
    var start := profiler.started + profiler.root.startMs / 1000.0;
    var end := EndTime(start, profiler.root.durationMs);
    var trace :- AddHttpInformation(NewSegment(serviceName, traceId, start, end), provider);
    var children :- ConvertChildren(profiler.root, start, |profiler.root.children|);
    var root := Subsegment(profiler.name, start, end, None, None, [], children);
    Ok(trace.(subsegments := [root], inProgress := false))
  }

  /** The children of the root all convert. */
  predicate ChildrenOk(root: Timing) {
    forall i :: 0 <= i < |root.children| ==> TreeOk(root.children[i])
  }

  /** The export fails exactly when the session start leaves the 32-bit
      epoch range (`OverflowException`), or else the provider cannot resolve
      the accessor (`InvalidOperationException`), or else a SQL command
      below the root carries the marker but not on a line of its own
      (`IndexOutOfRangeException`), checked in that order. */
  lemma {:induction false} ExportOutcome(profiler: MiniProfiler, serviceName: string, provider: Option<ServiceProvider>, random: string)
    ensures var r := Export(profiler, serviceName, provider, random);
      && (r.Ok? <==> NewId(profiler.started, random).Ok? && !(provider.Some? && provider.value.accessor.None?) && ChildrenOk(profiler.root))
      && (NewId(profiler.started, random).Err? ==> r == Err(OverflowException))
      && (NewId(profiler.started, random).Ok? && provider.Some? && provider.value.accessor.None? ==> r == Err(InvalidOperationException))
      && (NewId(profiler.started, random).Ok? && !(provider.Some? && provider.value.accessor.None?) && !ChildrenOk(profiler.root) ==>
            r == Err(IndexOutOfRangeException))
  {
    NewIdFailsOutsideInt32(profiler.started, random);
    ConvertChildrenOk(profiler.root, profiler.started + profiler.root.startMs / 1000.0, |profiler.root.children|);
  }

  /** A sent document: named after the service, finished, carrying the
      session's trace id, timed like the root timing (ending after the root's
      duration, and only when that is known), and holding one subsegment named after
      the session, timed the same, with the children's subsegments in
      order. */
  lemma {:induction false} ExportShape(profiler: MiniProfiler, serviceName: string, provider: Option<ServiceProvider>, random: string)
    requires Export(profiler, serviceName, provider, random).Ok?
    ensures var doc := Export(profiler, serviceName, provider, random).value;
      var start := profiler.started + profiler.root.startMs / 1000.0;
      && doc.name == serviceName
      && doc.traceId == NewId(profiler.started, random).value
      && !doc.inProgress
      && doc.startTime == start
      && doc.endTime == EndTime(start, profiler.root.durationMs)
      && |doc.subsegments| == 1
      && doc.subsegments[0].name == profiler.name
      && doc.subsegments[0].startTime == doc.startTime && doc.subsegments[0].endTime == doc.endTime
      && doc.subsegments[0].annotations == []
      && |doc.subsegments[0].subsegments| == |profiler.root.children|
      && (forall i :: 0 <= i < |profiler.root.children| ==>
            ConvertNode(profiler.root.children[i], start) == Ok(doc.subsegments[0].subsegments[i]))
  {
    var start := profiler.started + profiler.root.startMs / 1000.0;
    ConvertChildrenShape(profiler.root, start, |profiler.root.children|);
  }

  /** Outside a request the document carries no HTTP block and no error,
      fault or throttle flag; inside one it carries the request's and the
      response's attributes and is flagged by the response status alone: an
      error on a 4xx status, throttled on 429, a fault on a 5xx status. */
  lemma {:induction false} ExportHttp(profiler: MiniProfiler, serviceName: string, provider: Option<ServiceProvider>, random: string)
    requires Export(profiler, serviceName, provider, random).Ok?
    ensures var doc := Export(profiler, serviceName, provider, random).value;
      && (CurrentContext(provider).None? ==>
            doc.http.None? && !doc.hasError && !doc.hasFault && !doc.isThrottled)
      && (CurrentContext(provider).Some? ==>
            var context := CurrentContext(provider).value;
            var status := context.response.statusCode;
            && doc.http == Some(HttpAttributes(RequestAttributesOf(context.request), ResponseAttributes(status, context.response.contentLength)))
            && (doc.hasError <==> IsClientError(status))
            && (doc.isThrottled <==> status == TooManyRequests)
            && (doc.hasFault <==> IsServerError(status)))
  {
  }

  /** The root subsegment of a sent document holds one subsegment per timing
      below the root timing and one per SQL timing they hold. */
  lemma {:induction false} ExportCount(profiler: MiniProfiler, serviceName: string, provider: Option<ServiceProvider>, random: string)
    requires Export(profiler, serviceName, provider, random).Ok?
    ensures var doc := Export(profiler, serviceName, provider, random).value;
      && |doc.subsegments| == 1
      && SubsegmentCount(doc.subsegments[0]) == 1 + ChildrenTimingCount(profiler.root, |profiler.root.children|)
  {
    var start := profiler.started + profiler.root.startMs / 1000.0;
    var kids := ConvertChildren(profiler.root, start, |profiler.root.children|).value;
    var root := Export(profiler, serviceName, provider, random).value.subsegments[0];
    assert root.subsegments == kids;
    ConvertChildrenCount(profiler.root, start, |profiler.root.children|);
    WrapperCount(root);
  }

  /** A subsegment counts itself and what it holds. */
  lemma {:induction false} WrapperCount(s: Subsegment)
    ensures SubsegmentCount(s) == 1 + ListCount(s.subsegments)
  {
    NestedIsListCount(s, |s.subsegments|);
    assert s.subsegments[..|s.subsegments|] == s.subsegments;
  }

  /** What the root's own custom timings hold makes no difference to the
      export. */
  lemma {:induction false} RootCustomTimingsIgnored(profiler: MiniProfiler, serviceName: string, provider: Option<ServiceProvider>, random: string,
                                                   cats: seq<(string, seq<CustomTimingData>)>)
    ensures Export(profiler.(root := profiler.root.(customTimings := cats)), serviceName, provider, random)
         == Export(profiler, serviceName, provider, random)
  {
    var other := profiler.root.(customTimings := cats);
    var start := profiler.started + profiler.root.startMs / 1000.0;
    SameChildren(profiler.root, other, start, |profiler.root.children|);
  }

  lemma {:induction false} SameChildren(a: Timing, b: Timing, base: real, n: nat)
    requires a.children == b.children && n <= |a.children|
    ensures ConvertChildren(a, base, n) == ConvertChildren(b, base, n)
    decreases n
  {
    if n > 0 {
      SameChildren(a, b, base, n - 1);
    }
  }

  /** The document building half of `Save`, step by step as the storage
      does it: trace id, segment, HTTP block, then the root subsegment with
      one subsegment per child of the root timing. */
  method BuildTrace(profiler: MiniProfiler, serviceName: string, provider: Option<ServiceProvider>, random: string)
    returns (r: Result<TraceDocument, Exception>)
    ensures r == Export(profiler, serviceName, provider, random)
  {
    var traceId := NewId(profiler.started, random);
    if traceId.Err? {
      return Err(traceId.error);
    }
    var start := profiler.started + profiler.root.startMs / 1000.0;
    var end := EndTime(start, profiler.root.durationMs);
    var withHttp := AddHttpInformation(NewSegment(serviceName, traceId.value, start, end), provider);
    if withHttp.Err? {
      return Err(withHttp.error);
    }
    var children: seq<Subsegment> := [];
    for i := 0 to |profiler.root.children|
      invariant ConvertChildren(profiler.root, start, i) == Ok(children)
    {
      var sub := ProcessNode(profiler.root.children[i], start);
      if sub.Err? {
        ChildrenErrorStays(profiler.root, start, i + 1, |profiler.root.children|);
        return Err(sub.error);
      }
      children := children + [sub.value];
    }
    var root := Subsegment(profiler.name, start, end, None, None, [], children);
    r := Ok(withHttp.value.(subsegments := [root], inProgress := false));
  }

  /** The X-Ray storage. `emitted` stands for the UDP emitter: the documents
      handed to it, in order. `alreadySent` is the register of sent
      session ids. */
  class XRayMiniprofilerStorage {
    const serviceName: string
    var provider: Option<ServiceProvider>
    var alreadySent: seq<Guid>
    var emitted: seq<TraceDocument>

    ghost predicate Valid()
      reads this
    {
      WindowOk(alreadySent)
    }

    constructor (serviceName: string)
      ensures Valid()
      ensures this.serviceName == serviceName && provider.None?
      ensures alreadySent == [] && emitted == []
    {
      this.serviceName := serviceName;
      provider := None;
      alreadySent := [];
      emitted := [];
    }

    method SetServiceProvider(p: ServiceProvider)
      modifies this
      ensures provider == Some(p)
      ensures alreadySent == old(alreadySent) && emitted == old(emitted)
    {
      provider := Some(p);
    }

    /** Builds the document for `profiler` (`random` stands for the random
      digits of the trace id) and sends it unless the session id is
      registered; then registers the id and drops the oldest id once there
      are ten. An exception leaves the storage as it was and is returned. */
    method Save(profiler: MiniProfiler, random: string) returns (thrown: Option<Exception>)
      requires Valid()
      modifies this
      ensures Valid()
      ensures provider == old(provider)
      ensures match Export(profiler, serviceName, old(provider), random)
        case Err(e) => thrown == Some(e) && alreadySent == old(alreadySent) && emitted == old(emitted)
        case Ok(doc) =>
          var (send, after) := Remember(old(alreadySent), profiler.id);
          && thrown.None?
          && alreadySent == after
          && emitted == old(emitted) + (if send then [doc] else [])
    {
      var built := BuildTrace(profiler, serviceName, provider, random);
      if built.Err? {
        return Some(built.error);
      }
      var trace := built.value;
      RememberFacts(alreadySent, profiler.id);
      if profiler.id !in alreadySent {
        emitted := emitted + [trace];
        alreadySent := alreadySent + [profiler.id];
      }
      if |alreadySent| >= Capacity {
        alreadySent := alreadySent[1..];
      }
      thrown := None;
    }
  }
}
