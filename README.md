# MiniProfilerXRay in Dafny

MiniProfilerXRay sends MiniProfiler profiling sessions to AWS X-Ray. This
project models its two working parts and proves what they promise.

- **`XRayMiniprofilerStorage`**, the MiniProfiler storage. `Save` turns a
  finished profiling session into one X-Ray segment document:
  - a trace id `1-<hex epoch>-<random>`;
  - start and end times taken from the root timing;
  - an HTTP block from the current ASP.NET Core request, with the error,
    throttle and fault flags;
  - one subsegment named after the session, holding a subsegment per timing
    below the root (nested as the timings are), a `remote` subsegment per
    SQL custom timing, and the annotations stored in `xrayAnnotations`
    custom timings.

  It sends the document unless the session id is among the recently sent
  ids, which it keeps in a register of at most nine entries.
- **`AddXRayAnnotation`**, the extension that writes annotations into a
  custom timing's command string as comma-separated JSON objects.
- **`RelationalDiagnosticListener`**, the Entity Framework Core listener. It
  opens a SQL custom timing when a command starts or a connection starts
  opening or closing. It tags the command string with
  `\n/*XRAY database@server */` and keeps the timing by command or
  connection id in one of four maps. It stops, moves or flags the timing
  when the matching completion, reader-disposal or error event arrives.

Files, one module each (`annotations.dfy` holds two):

| file | module | what it models |
|---|---|---|
| `wrappers.dfy` | `Wrappers` | `Option`, `Result`, and the exceptions the code can throw |
| `strings.dfy` | `Strings` | the .NET string operations used (`IndexOf`, `Contains`, `Split`, `Replace`, `Join`, `Trim`) |
| `hex.dfy` | `Hex` | `Int32.ToString("x")` |
| `json.dfy` | `Json` | a JSON subset (null, booleans, integers, strings), its serializer and a strict decoder |
| `profiling.dfy` | `Profiling` | MiniProfiler timings; `CustomTiming` as a class the listener updates in place |
| `xray.dfy` | `XRay` | the segment document and its subsegments |
| `trace_id.dfy` | `TraceId` | `NewId` |
| `annotations.dfy` | `Annotations`, `AnnotationRoundTrip` | `StartXRayAnnotations`, `AddXRayAnnotation`, and what the exporter decodes from them |
| `converter.dfy` | `Converter` | `ProcessNode`: the timing tree to subsegments, the SQL tag split, the annotations |
| `http.dfy` | `Http` | `AddHttpInformation`, `GetXForwardedFor` |
| `sent_log.dfy` | `SentLog` | the `AlreadySent` register |
| `storage.dfy` | `Storage` | `Save`, and the storage class with its register and emitter |
| `listener.dfy` | `Listener` | `OnNext` and its four maps |

How it is modelled:
- The pure parts are functions: the trace id, the SQL split, the header
  choice, the status flags and the register step.
- Each step-by-step part is a method proved equal to its function:
  - `ProcessNode`, with its loops over children and categories;
  - the document building in `Save`.
- The storage and the listener are classes whose methods update their
  fields in place.
- Times are `real`, standing for .NET `decimal` seconds.
- The exceptions the code can throw are `Err` results:
  - the `int` cast in `NewId`;
  - `GetRequiredService`;
  - `parts[1]` in `ProcessNode`.

Points where the code does something a reader might not expect. The model
follows the code on each:
- **SQL subsegment name.** A tagged SQL subsegment is named
  `" database@server"`, with a leading space. The split pattern `\n/\*XRAY`
  does not consume the space that follows it.
- **Trace id epoch.** The epoch in the trace id is unpadded hex. Before
  1978 it has fewer than eight digits (`1-3e8-…` for second 1000).
- **Forwarded address.** An `X-Forwarded-For` value that begins with an
  empty entry (`" , 10.0.0.1"`) gives an empty `client_ip` that is still
  flagged as forwarded.
- **Marker without a newline.** A command that holds `/*XRAY` but never
  right after a line feed makes the export throw `IndexOutOfRangeException`,
  and the session is not sent. That includes a command that begins with
  `/*XRAY`. A command with one `/*XRAY` in mid-line and another right after
  a line feed is split at the second and does not throw.
- **Connection errors.** A connection error flags the opening or closing
  timing but does not stop it. Because a connection error event is also a
  connection end event, `ConnectionOpened` and `ConnectionClosed` accept
  error payloads too.

## Model

Paths are relative to the repository root.

| member | source | states |
|---|---|---|
| TraceId.TruncateToInt | MiniProfilerXRay/XRayMiniprofilerStorage.cs:306 | the `(int)` cast of the epoch seconds truncates toward zero: for a non-negative time, the non-negative integer at most the time and within one of it; for a negative time, the non-positive integer at least the time and within one of it |
| TraceId.NewIdFailsOutsideInt32 | MiniProfilerXRay/XRayMiniprofilerStorage.cs:303-306 | building the trace id throws `OverflowException` exactly when the start time is at most -2147483649 or at least 2147483648 seconds |
| TraceId.NewIdSplit | MiniProfilerXRay/XRayMiniprofilerStorage.cs:311-314 | splitting the trace id on `-` gives back exactly the three joined parts: `"1"`, the hex epoch and the random part |
| TraceId.NewIdFields | MiniProfilerXRay/XRayMiniprofilerStorage.cs:303-315 | the trace id has three `-`-separated fields: `"1"`; 1 to 8 lowercase hex digits, unpadded (leading `0` only for epoch 0), whose value is the truncated epoch modulo 2^32 (the epoch itself when non-negative); and the random part unchanged |
| TraceId.NewIdEightDigitsSince1978 | MiniProfilerXRay/XRayMiniprofilerStorage.cs:311 | from 2^28 seconds up to the 32-bit limit, the epoch field has exactly eight digits |
| TraceId.NewIdShortEpoch | MiniProfilerXRay/XRayMiniprofilerStorage.cs:311 | the epoch field is not padded: second 1000 gives `1-3e8-<random>` |
| Hex.ToHexRoundTrip | MiniProfilerXRay/XRayMiniprofilerStorage.cs:311 | the hex rendering reads back as the number, and starts with `0` only for zero |
| Hex.ToHexLength | MiniProfilerXRay/XRayMiniprofilerStorage.cs:311 | a number below 16^k renders in at most k digits |
| Hex.Int32ToHexFacts | MiniProfilerXRay/XRayMiniprofilerStorage.cs:311 | a 32-bit integer renders as 1 to 8 digits whose value is the integer modulo 2^32 (two's complement for negatives) |
| Annotations.StartXRayAnnotations | MiniProfilerXRay/XRayMiniprofilerStorage.cs:25-28 | the annotation timing starts with an empty command string, not stopped, not errored |
| Annotations.AddXRayAnnotation | MiniProfilerXRay/XRayMiniprofilerStorage.cs:30-37 | the new command string is the old one, then a comma exactly when the old one was non-empty, then `{ "Key" : "<key>" , "Value" : <json>}`; nothing else about the timing changes |
| Json.ParseValueRoundTrip | MiniProfilerXRay/XRayMiniprofilerStorage.cs:37 | decoding a serialized value gives the value back and leaves the text after it untouched |
| AnnotationRoundTrip.AppendDecodeRoundTrip | MiniProfilerXRay/XRayMiniprofilerStorage.cs:223-225 | wrapping the appended annotations in brackets and decoding gives back exactly the pairs appended, in order (none for an empty string), provided no key holds a quote or a backslash; date-shaped string values are kept as strings |
| XRay.EndTime | MiniProfilerXRay/XRayMiniprofilerStorage.cs:173-174 | an entity has an end time exactly when its duration is known, and the end is the start plus the duration in seconds |
| Converter.SplitSqlOk | MiniProfilerXRay/XRayMiniprofilerStorage.cs:198-206 | the SQL split succeeds exactly when a command holding `/*XRAY` also holds `\n/*XRAY`, and otherwise throws `IndexOutOfRangeException`; an untagged command keeps the execute type as name and is its own query; a tagged one's query is the text before the first `\n/*XRAY` |
| Converter.SqlSubsegmentsOk | MiniProfilerXRay/XRayMiniprofilerStorage.cs:187-213 | a run of SQL timings converts exactly when every command is accepted by the split, and otherwise throws `IndexOutOfRangeException` |
| Converter.SqlSubsegmentsShape | MiniProfilerXRay/XRayMiniprofilerStorage.cs:187-210 | one subsegment per SQL timing, in order; each is the conversion of its timing: in the `remote` namespace, with no subsegments or annotations, named and queried by the split of that timing's command, starting at the trace start plus the timing's offset and ending after its duration (no end while the duration is unknown) |
| Converter.CategoryItemsOk | MiniProfilerXRay/XRayMiniprofilerStorage.cs:182-238 | a node's custom timings convert exactly when every timing in a `sql` category is accepted by the split |
| Converter.ConvertNodeOk | MiniProfilerXRay/XRayMiniprofilerStorage.cs:167-241 | a timing tree converts exactly when every SQL timing in it is accepted by the split; otherwise the export throws `IndexOutOfRangeException` |
| Converter.ConvertChildrenOk | MiniProfilerXRay/XRayMiniprofilerStorage.cs:178-180 | the first n children convert exactly when each of their trees does |
| Converter.ConvertChildrenShape | MiniProfilerXRay/XRayMiniprofilerStorage.cs:178-180 | the children's subsegments are one per child, in the children's order, each the conversion of that child |
| Converter.CategoryItemsShape | MiniProfilerXRay/XRayMiniprofilerStorage.cs:182-214 | a node's custom timings yield one `remote` subsegment per timing in a `sql` category and no other subsegment; the k-th of them is the conversion of the k-th SQL timing, across categories in order, named, queried and timed from it |
| Converter.ConvertNodeShape | MiniProfilerXRay/XRayMiniprofilerStorage.cs:167-213 | a node's subsegment has the timing's name; it starts at the trace start (not the parent's) plus the offset and ends after the duration (no end while it is unknown); its annotations are those decoded from its annotation timings, in order; it holds first the children's subsegments in order, then the subsegment of each SQL timing, in order, named, queried and timed from that timing |
| Converter.CategoryNotes | MiniProfilerXRay/XRayMiniprofilerStorage.cs:182-237 | the annotations a node's custom timings yield are those decoded from the timings of the `xrayAnnotations` category, in order, whatever the other categories hold |
| Converter.ConvertNodeCount | MiniProfilerXRay/XRayMiniprofilerStorage.cs:167-213 | the subsegment tree has exactly as many subsegments as the timing tree has timings plus SQL timings: nothing is lost or added |
| Converter.ConvertChildrenCount | MiniProfilerXRay/XRayMiniprofilerStorage.cs:178-180 | the children's subsegment trees together count the children's timings and SQL timings |
| Converter.AnnotationsReachSubsegment | MiniProfilerXRay/XRayMiniprofilerStorage.cs:217-235 | a node whose one custom timing is an annotation timing filled by `AddXRayAnnotation` carries exactly the annotations added, in order |
| Converter.TimingAnnotationsAppend | MiniProfilerXRay/XRayMiniprofilerStorage.cs:219-235 | annotation timings are decoded independently: two runs give the first run's annotations followed by the second's |
| Converter.UndecodableEntrySkipped | MiniProfilerXRay/XRayMiniprofilerStorage.cs:221-234 | an annotation timing whose text does not decode contributes nothing, and the timings before and after it still contribute theirs |
| Converter.CategoryItemsAppend | MiniProfilerXRay/XRayMiniprofilerStorage.cs:182-238 | categories are converted in order: the first failure is the result; otherwise the SQL subsegments and annotations of two runs are concatenated |
| Converter.OtherCategoryIgnored | MiniProfilerXRay/XRayMiniprofilerStorage.cs:185-237 | a category other than `sql` and `xrayAnnotations`, wherever it stands, makes no difference |
| Converter.ProcessNode | MiniProfilerXRay/XRayMiniprofilerStorage.cs:167-241 | the recursive walk with its loops over children and categories builds exactly the converted subsegment, or throws the same exception |
| Converter.ProcessCategories | MiniProfilerXRay/XRayMiniprofilerStorage.cs:182-238 | the loop over a node's custom timing categories gathers exactly their SQL subsegments and annotations, or throws |
| Converter.SqlTimings | MiniProfilerXRay/XRayMiniprofilerStorage.cs:187-213 | the loop over a `sql` category builds exactly its SQL subsegments, or throws at the first bad command |
| Converter.AnnotationsOf | MiniProfilerXRay/XRayMiniprofilerStorage.cs:219-235 | the loop over an `xrayAnnotations` category gathers exactly the decoded annotations, skipping undecodable timings |
| Http.RequestAttributesOf | MiniProfilerXRay/XRayMiniprofilerStorage.cs:255-274 | `x_forwarded_for` is set exactly when a forwarded address is found, and `client_ip` is that address, otherwise the peer address; `user_agent` is present exactly when the header is |
| Http.XForwardedForFacts | MiniProfilerXRay/XRayMiniprofilerStorage.cs:317-326 | no forwarded address exactly when the header is missing, has no values, or its first value is empty; otherwise the address is the first value up to its first comma, with white space trimmed from both ends, so it holds no comma and has no white space at either end |
| Http.XForwardedForSingle | MiniProfilerXRay/XRayMiniprofilerStorage.cs:321-325 | a first value that is one address without commas or surrounding spaces is taken as it is |
| Http.XForwardedForEmptyEntry | MiniProfilerXRay/XRayMiniprofilerStorage.cs:325 | the value `" , 10.0.0.1"` gives the empty address, which still becomes `client_ip` and is flagged as forwarded |
| Http.AddHttpInformation | MiniProfilerXRay/XRayMiniprofilerStorage.cs:243-301 | it throws `InvalidOperationException` exactly when a provider is set that cannot resolve the accessor; with no provider or no current request the trace is unchanged; otherwise it adds the request and response block (status, content length), sets the error flag for 4xx, the throttle flag also for 429, the fault flag for 5xx, and changes nothing else |
| Http.FreshTraceFlags | MiniProfilerXRay/XRayMiniprofilerStorage.cs:289-298 | on a new segment, error and fault are never both raised, and throttling comes only with an error |
| SentLog.RememberFacts | MiniProfilerXRay/XRayMiniprofilerStorage.cs:103-109 | a session is sent exactly when its id is not registered; afterwards its id is registered, the register holds distinct ids and fewer than ten, and it is the last nine ids of the register plus the new one |
| SentLog.SecondSaveNotSent | MiniProfilerXRay/XRayMiniprofilerStorage.cs:103-107 | saving the same session twice in a row sends it once and the second save leaves the register as it was |
| SentLog.RememberAllNew | MiniProfilerXRay/XRayMiniprofilerStorage.cs:103-109 | after a run of new sessions the register holds the last nine ids sent, oldest first |
| SentLog.Eviction | MiniProfilerXRay/XRayMiniprofilerStorage.cs:109 | a session id stays registered, so is not re-sent, while fewer than nine new sessions are saved after it, and is forgotten after exactly nine |
| Storage.ExportOutcome | MiniProfilerXRay/XRayMiniprofilerStorage.cs:75-95 | `Save` builds a document exactly when the start fits the 32-bit epoch, the provider (if any) resolves the accessor and every SQL command below the root splits; otherwise it throws `OverflowException`, `InvalidOperationException` or `IndexOutOfRangeException`, checked in that order |
| Storage.ExportShape | MiniProfilerXRay/XRayMiniprofilerStorage.cs:77-101 | the document is named after the service, has the session's trace id, is not in progress, starts at the session start plus the root offset and ends after the root's duration (no end while it is unknown); it holds one subsegment named after the session, with the same times, no annotations, and the root children's subsegments in order |
| Storage.ExportHttp | MiniProfilerXRay/XRayMiniprofilerStorage.cs:77-101 | outside a request the document has no HTTP block and no error, fault or throttle flag; inside one it carries the request and response attributes, is an error exactly on a 4xx status, throttled exactly on 429 and a fault exactly on a 5xx status |
| Storage.ExportCount | MiniProfilerXRay/XRayMiniprofilerStorage.cs:89-95 | the session subsegment's tree counts itself plus every timing below the root and every SQL timing they hold |
| Storage.RootCustomTimingsIgnored | MiniProfilerXRay/XRayMiniprofilerStorage.cs:95 | the root timing's own custom timings make no difference to the document |
| Storage.BuildTrace | MiniProfilerXRay/XRayMiniprofilerStorage.cs:77-101 | building the document step by step (trace id, segment, HTTP block, loop over the root's children) gives exactly the exported document or exception |
| Storage.XRayMiniprofilerStorage.constructor | MiniProfilerXRay/XRayMiniprofilerStorage.cs:61-67 | a new storage has the given service name, no provider, an empty register and nothing sent |
| Storage.XRayMiniprofilerStorage.SetServiceProvider | MiniProfilerXRay/XRayMiniprofilerStorage.cs:162-165 | the provider is replaced and nothing else changes |
| Storage.XRayMiniprofilerStorage.Save | MiniProfilerXRay/XRayMiniprofilerStorage.cs:75-111 | an exception leaves the register and the sent documents as they were; otherwise the document is sent exactly when the id was not registered, the register takes one step, and the register invariant (distinct, fewer than ten) is kept |
| Profiling.CustomTiming.Stop | MiniProfilerXRay.EntityFrameworkCore/RelationalDiagnosticListener.cs:80 | stopping records the duration at the current time unless one is recorded, and changes nothing else |
| Profiling.CustomTiming.FirstFetchCompleted | MiniProfilerXRay.EntityFrameworkCore/RelationalDiagnosticListener.cs:76 | the first fetch is recorded unless already recorded, and nothing else changes |
| Listener.RelationalDiagnosticListener.constructor | MiniProfilerXRay.EntityFrameworkCore/RelationalDiagnosticListener.cs:26-33 | the four maps start empty |
| Listener.NewTaggedTiming | MiniProfilerXRay.EntityFrameworkCore/RelationalDiagnosticListener.cs:60-62 | a new timing's command string gains exactly the suffix `\n/*XRAY <database>@<server> */` |
| Listener.RelationalDiagnosticListener.OnNext | MiniProfilerXRay.EntityFrameworkCore/RelationalDiagnosticListener.cs:49-167 | per event, the timing created (if any), the new content of each of the four maps, and the new state of the one timing the event finishes; every other event, payload type or untracked id changes nothing |
| Listener.RelationalDiagnosticListener.OnCommandExecuting | MiniProfilerXRay.EntityFrameworkCore/RelationalDiagnosticListener.cs:53-66 | under a running profiler, a new tagged timing with execute type `<method>` or `<method> (Async)` is stored under the command id, replacing any earlier one |
| Listener.RelationalDiagnosticListener.OnCommandExecuted | MiniProfilerXRay.EntityFrameworkCore/RelationalDiagnosticListener.cs:68-83 | a tracked command leaves `commands`; with a data reader it moves to `readers` with its first fetch recorded, otherwise it is stopped |
| Listener.RelationalDiagnosticListener.OnCommandError | MiniProfilerXRay.EntityFrameworkCore/RelationalDiagnosticListener.cs:84-91 | a tracked command leaves `commands`, flagged as errored and stopped |
| Listener.RelationalDiagnosticListener.OnDataReaderDisposing | MiniProfilerXRay.EntityFrameworkCore/RelationalDiagnosticListener.cs:92-98 | a tracked reader leaves `readers` and its timing is stopped |
| Listener.RelationalDiagnosticListener.OnConnectionOpening | MiniProfilerXRay.EntityFrameworkCore/RelationalDiagnosticListener.cs:101-119 | when connections are tracked (no profiler, no options, or the option set) and the profiler runs, a tagged `Open`/`OpenAsync` timing is stored under the connection id |
| Listener.RelationalDiagnosticListener.OnConnectionOpened | MiniProfilerXRay.EntityFrameworkCore/RelationalDiagnosticListener.cs:120-126 | a tracked opening leaves `opening` and is stopped |
| Listener.RelationalDiagnosticListener.OnConnectionClosing | MiniProfilerXRay.EntityFrameworkCore/RelationalDiagnosticListener.cs:127-145 | as for opening, with a `Close`/`CloseAsync` timing stored in `closing` |
| Listener.RelationalDiagnosticListener.OnConnectionClosed | MiniProfilerXRay.EntityFrameworkCore/RelationalDiagnosticListener.cs:146-152 | a tracked closing leaves `closing` and is stopped |
| Listener.RelationalDiagnosticListener.OnConnectionError | MiniProfilerXRay.EntityFrameworkCore/RelationalDiagnosticListener.cs:153-166 | the connection id leaves both `opening` and `closing`; the timings found are flagged as errored, not stopped |
| Listener.TagRoundTrip | MiniProfilerXRay.EntityFrameworkCore/RelationalDiagnosticListener.cs:60-62 | the storage's split of a tagged command gives back the command text as query and `" database@server"` as name, provided the command holds no `\n/*XRAY` and the names hold no line break and no `*` |
| Listener.TaggedCommandExported | MiniProfilerXRay/XRayMiniprofilerStorage.cs:189-208 | the SQL timing of a tagged command becomes a `remote` subsegment named `" database@server"` whose query is the original command text, timed from the trace start |

## Left out

- The UDP emitter (`UdpSegmentEmitter`, `SetDaemonAddress`) is network I/O. `Send` is modelled as appending the document to the storage's `emitted` sequence, and the endpoint is not modelled.
- The default service name (the executing assembly's name) is a reflection call, so the storage is always constructed with a service name.
- `ThreadSafeRandom.GenerateHexNumber` and the clock are parameters: `random` for the 24 random digits of the trace id, `nowMs` for the profiler time of a listener event.
- `SaveAsync`'s `Task.Run`, the unlocked static `AlreadySent` shared by all storages, and the listener's concurrent dictionaries are concurrency. The model handles one call or event at a time, and the register belongs to one storage object.
- X-Ray entities (`Segment`, `Subsegment`) are values built bottom-up, not objects linked by `AddSubsegment`. `Release` and the SDK's reference counting are left out. The document is built completely or the call throws, so the partial tree the source leaves behind on an exception is not modelled.
- `Subsegment.AddAnnotation` validation (key format, value types, duplicate keys) is the X-Ray SDK's and is not modelled. Decoded annotations are kept as a list, in order.
- Newtonsoft `JsonConvert`: values are limited to null, booleans, integers and strings. Newtonsoft's leniencies (comments, single quotes, trailing commas, other number forms) and its other value types are not modelled.
- Json: the decoder is stricter than Newtonsoft's `KeyValuePairConverter`. It needs each entry to hold exactly the properties `"Key"` and then `"Value"`, in that order and case. Newtonsoft accepts them in any order and any case and skips other properties, so such an entry is annotated by the program but makes the model skip the whole annotation timing.
- Json: Newtonsoft's default date handling turns a string value shaped like a date (ISO 8601, or `/Date(…)/`) into a `DateTime`. The model keeps every string value a string.
- AnnotationRoundTrip.AppendDecodeRoundTrip: the round trip is stated for the model's decoder. For a string value shaped like a date the program decodes a `DateTime`, not the string that was appended.
- Converter.AnnotationsReachSubsegment: as for the round trip, a string value shaped like a date reaches the program's subsegment as a `DateTime`; the model states the string.
- `DateTime.AddMilliseconds(double)` rounding and the `decimal` precision of `ToUnixTimeSeconds` are not modelled: times are exact reals.
- `null` strings (a null `CommandString`, `ExecuteType` or header value) are not modelled: every string is present.
- The ASP.NET Core plumbing is a plain record. That covers the service provider and accessor lookup, `GetDisplayUrl`, header collections and `RemoteIpAddress.ToString`.
- MiniProfiler internals are not modelled:
  - how `GetTiming` and `CustomTiming` file a new timing under the current step (the created timing is returned by `OnNext`);
  - `GetTiming`'s readable formatting of the command text and its parameters (the command text is taken as given);
  - the conditions under which the profiler hands out a timing (a `running` flag).
- Event names and payload classes of Entity Framework Core are an enumeration and a datatype with the fields read. `OnCompleted`, `OnError` and `ListenerName` have no logic to model.
- `List`, `Load`, `SetViewed`, `SetUnviewed`, `GetUnviewedIds` and their async forms do nothing and are not modelled.
- Converter.SplitSqlOk: for a tagged command it states where the query ends, not what the name is in general. The `" */"` removal is stated for the listener's tags in `Listener.TagRoundTrip`.
- Listener.TagRoundTrip: requires database and server names without `*` or line breaks. Other names can make the removal of `" */"` or the split on `\n/*XRAY` cut the name elsewhere.
