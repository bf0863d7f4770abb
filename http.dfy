/** The HTTP block of the trace: request and response attributes taken from
    the current ASP.NET Core request, and the error, throttle and fault flags
    that the response status sets. */
module Http {
  import opened Wrappers
  import opened Strings
  import opened XRay

  /** What the exporter reads of the current request. A header is absent
      (`None`) or holds its list of values. */
  datatype HttpRequest = HttpRequest(
    displayUrl: string,
    requestMethod: string,
    forwardedFor: Option<seq<string>>,   // the X-Forwarded-For header
    userAgent: Option<seq<string>>,      // the User-Agent header
    remoteIp: Option<string>)            // the connection's remote address, if known

  datatype HttpResponse = HttpResponse(statusCode: int, contentLength: Option<int>)

  datatype HttpContext = HttpContext(request: HttpRequest, response: HttpResponse)

  /** The registered `IHttpContextAccessor` and the request it currently sees. */
  datatype HttpContextAccessor = HttpContextAccessor(context: Option<HttpContext>)

  /** The service provider handed to the storage: whether it can resolve an
      `IHttpContextAccessor`, and which one. */
  datatype ServiceProvider = ServiceProvider(accessor: Option<HttpContextAccessor>)

  /** The client address claimed by the proxy chain: the first
      comma-separated entry of the header's first value, trimmed; nothing
      when the header is missing, has no values or its first value is empty. */
  function GetXForwardedFor(request: HttpRequest): Option<string> {
    var first := match request.forwardedFor
      case Some(values) => if |values| >= 1 then values[0] else ""
      case None => "";
    if first == "" then None else Some(Trim(Split(first, ",")[0]))
  }

  /** The request attributes: the client ip comes from X-Forwarded-For when
      that yields one (and is then flagged), else from the connection; the
      user agent is present only when the header is, its values joined by
      commas. */
  function RequestAttributesOf(request: HttpRequest): (r: RequestAttributes)
    ensures r.xForwardedFor <==> GetXForwardedFor(request).Some?
    ensures r.clientIp == (if r.xForwardedFor then GetXForwardedFor(request) else request.remoteIp)
    ensures r.userAgent.Some? <==> request.userAgent.Some?
  {
    var forwarded := GetXForwardedFor(request);
    RequestAttributes(
      request.displayUrl,
      request.requestMethod,
      if forwarded.Some? then forwarded else request.remoteIp,
      forwarded.Some?,
      match request.userAgent
      case Some(values) => Some(Join(values, ","))
      case None => None)
  }

  predicate IsClientError(status: int) {
    400 <= status <= 499
  }

  predicate IsServerError(status: int) {
    500 <= status <= 599
  }

  const TooManyRequests := 429

  /** The request being served, when a provider is given that resolves an
      accessor which sees one. */
  function CurrentContext(provider: Option<ServiceProvider>): Option<HttpContext> {
    if provider.Some? && provider.value.accessor.Some? then provider.value.accessor.value.context else None
  }

  /** Adds the HTTP block to `trace`. Without a service provider, or when no
      request is current, the trace is left as it is; a provider that cannot
      resolve the accessor makes `GetRequiredService` throw. With a current
      request, the block records the request and the response status and
      length; a 4xx status raises the error flag, 429 also the throttle flag,
      a 5xx status the fault flag; a flag is only ever raised, and nothing
      else about the trace changes. */
  function AddHttpInformation(trace: TraceDocument, provider: Option<ServiceProvider>): (r: Result<TraceDocument, Exception>)
    ensures r.Err? <==> provider.Some? && provider.value.accessor.None?
    ensures r.Err? ==> r.error == InvalidOperationException
    ensures r.Ok? && CurrentContext(provider).None? ==> r.value == trace
    ensures CurrentContext(provider).Some? ==>
      var context := CurrentContext(provider).value;
      var status := context.response.statusCode;
      && r.Ok?
      && r.value.http == Some(HttpAttributes(RequestAttributesOf(context.request), ResponseAttributes(status, context.response.contentLength)))
      && (r.value.hasError <==> trace.hasError || IsClientError(status))
      && (r.value.isThrottled <==> trace.isThrottled || status == TooManyRequests)
      && (r.value.hasFault <==> trace.hasFault || IsServerError(status))
      && r.value.(http := trace.http, hasError := trace.hasError, isThrottled := trace.isThrottled, hasFault := trace.hasFault) == trace
  {
    match provider
    case None => Ok(trace)
    case Some(p) =>
      match p.accessor
      case None => Err(InvalidOperationException)
      case Some(accessor) =>
        match accessor.context
        case None => Ok(trace)
        case Some(context) =>
          var status := context.response.statusCode;
          var http := HttpAttributes(
            RequestAttributesOf(context.request),
            ResponseAttributes(status, context.response.contentLength));
          if IsClientError(status) then
            Ok(trace.(http := Some(http), hasError := true,
                      isThrottled := if status == TooManyRequests then true else trace.isThrottled))
          else if IsServerError(status) then
            Ok(trace.(http := Some(http), hasFault := true))
          else
            Ok(trace.(http := Some(http)))
  }

  // ---------------------------------------------------------------------

  /** The forwarded address is absent exactly when the header gives no
      non-empty first value; when present it is the first value's text up to
      its first comma, trimmed, so it holds no comma and neither starts nor
      ends with white space. */
  lemma {:induction false} XForwardedForFacts(request: HttpRequest)
    ensures GetXForwardedFor(request).None? <==>
      (request.forwardedFor.None? || |request.forwardedFor.value| == 0 || request.forwardedFor.value[0] == "")
    ensures GetXForwardedFor(request).Some? ==>
      var first := request.forwardedFor.value[0];
      var ip := GetXForwardedFor(request).value;
      && ip == Trim(first[..FirstIndexOf(first, ',')])
      && ',' !in ip
      && (ip == [] || (!IsWhiteSpace(ip[0]) && !IsWhiteSpace(ip[|ip| - 1])))
  {
    match GetXForwardedFor(request)
    case None =>
    case Some(ip) =>
      var first := request.forwardedFor.value[0];
      var field := first[..FirstIndexOf(first, ',')];
      SplitFirstChar(first, ',');
      assert Split(first, ",")[0] == field;
      TrimFacts(field, ',');
  }

  /** A first value that is a single address without surrounding white
      space is taken as it is. */
  lemma {:induction false} XForwardedForSingle(request: HttpRequest, ip: string)
    requires request.forwardedFor.Some? && |request.forwardedFor.value| >= 1
    requires request.forwardedFor.value[0] == ip && ip != []
    requires ',' !in ip && !IsWhiteSpace(ip[0]) && !IsWhiteSpace(ip[|ip| - 1])
    ensures GetXForwardedFor(request) == Some(ip)
  {
    NoIndexOfChar(ip, ',');
  }

  /** A first value that starts with an empty entry gives an empty address,
      which is still reported as forwarded: `" , 10.0.0.1"` yields `""`. */
  lemma {:induction false} XForwardedForEmptyEntry(request: HttpRequest)
    requires request.forwardedFor == Some([" , 10.0.0.1"])
    ensures GetXForwardedFor(request) == Some("")
    ensures RequestAttributesOf(request).clientIp == Some("")
    ensures RequestAttributesOf(request).xForwardedFor
  {
    var first := " , 10.0.0.1";
    IndexOfChar(first, ',', 1);
    assert first[..1] == " ";
    assert TrimStart(" ") == TrimStart(" "[1..]);
  }

  /** On a fresh trace, the status raises at most one of the error and fault
      flags, and throttling comes with the error flag. */
  lemma {:induction false} FreshTraceFlags(trace: TraceDocument, provider: Option<ServiceProvider>)
    requires CurrentContext(provider).Some?
    requires !trace.hasError && !trace.hasFault && !trace.isThrottled
    ensures var r := AddHttpInformation(trace, provider).value;
      && !(r.hasError && r.hasFault)
      && (r.isThrottled ==> r.hasError)
  {
  }
}
