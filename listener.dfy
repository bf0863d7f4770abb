/** The Entity Framework Core diagnostic listener: it opens a SQL custom
    timing when a command starts executing or a connection starts opening or
    closing, tags the timing's command string with the database and server
    (`\n/*XRAY db@server */`), remembers it by command or connection id, and
    finishes it when the matching completion or error event arrives. */
module Listener {
  import opened Wrappers
  import opened Strings
  import opened Profiling
  import Converter
  import XRay

  /** The diagnostic events the listener reacts to, by their Entity
      Framework Core event id; every other event name is `OtherEvent`. */
  datatype EventKey =
    | CommandExecuting | CommandExecuted | CommandError | DataReaderDisposing
    | ConnectionOpening | ConnectionOpened | ConnectionClosing | ConnectionClosed | ConnectionError
    | OtherEvent

  /** The database connection a command or event belongs to. */
  datatype DbConnection = DbConnection(database: string, dataSource: string)

  /** How far a command has got: `CommandEventData` while executing,
      `CommandExecutedEventData` once it returned (with whether its result
      is a data reader), `CommandErrorEventData` when it failed. */
  datatype CommandStage = Executing | Executed(resultIsDataReader: bool) | Failed

  /** `ConnectionEventData` when opening or closing starts,
      `ConnectionEndEventData` when it ended, `ConnectionErrorEventData`
      (itself an end event) when it failed. */
  datatype ConnectionStage = Starting | Ended | Errored

  /** The event payloads, with the fields the listener reads. */
  datatype Payload =
    | CommandData(stage: CommandStage, commandId: Guid, executeMethod: string, isAsync: bool,
                  commandText: string, connection: DbConnection)
    | DataReaderDisposingData(commandId: Guid)
    | ConnectionData(connStage: ConnectionStage, connectionId: Guid, isAsync: bool, connection: DbConnection)
    | OtherData

  /** The profiler of the current request, if any: whether it is running
      (only a running profiler hands out custom timings) and its options,
      if set. */
  datatype Profiler = Profiler(running: bool, options: Option<ProfilerOptions>)

  datatype ProfilerOptions = ProfilerOptions(trackConnectionOpenClose: bool)

  /** The tag appended to a command string: on a line of its own, a comment
      naming the database and the server. */
  function XRaySuffix(connection: DbConnection): string {
    "\n/*XRAY " + connection.database + "@" + connection.dataSource + " */"
  }

  /** The execute type of a command timing: the execute method, marked when
      asynchronous. */
  function CommandExecuteType(executeMethod: string, isAsync: bool): string {
    executeMethod + (if isAsync then " (Async)" else "")
  }

  /** Whether a profiler hands out a timing. */
  predicate Running(current: Option<Profiler>) {
    current.Some? && current.value.running
  }

  /** Connection open and close are timed unless the profiler's options say
      not to (no profiler or no options count as the default, which tracks). */
  predicate TracksConnections(current: Option<Profiler>) {
    current.None? || current.value.options.None? || current.value.options.value.trackConnectionOpenClose
  }

  function OpenCommand(isAsync: bool): string {
    if isAsync then "Connection OpenAsync()" else "Connection Open()"
  }

  function OpenExecuteType(isAsync: bool): string {
    if isAsync then "OpenAsync" else "Open"
  }

  function CloseCommand(isAsync: bool): string {
    if isAsync then "Connection CloseAsync()" else "Connection Close()"
  }

  function CloseExecuteType(isAsync: bool): string {
    if isAsync then "CloseAsync" else "Close"
  }

  /** `t` has been flagged as errored and stopped at `nowMs`. */
  twostate predicate ErroredAndStoppedAt(t: CustomTiming, nowMs: real)
    reads t
  {
    && t.errored
    && t.durationMs == (if old(t.durationMs).None? then Some(nowMs - t.startMs) else old(t.durationMs))
    && t.commandString == old(t.commandString)
    && t.firstFetchMs == old(t.firstFetchMs)
  }

  /** `t` has been flagged as errored and nothing else about it changed. */
  twostate predicate MarkedErrored(t: CustomTiming)
    reads t
  {
    && t.errored
    && t.durationMs == old(t.durationMs)
    && t.commandString == old(t.commandString)
    && t.firstFetchMs == old(t.firstFetchMs)
  }

  /** A new timing handed out by the profiler at `nowMs`, with the given
      execute type and tagged command string. */
  predicate NewTiming(t: CustomTiming, commandString: string, executeType: string, nowMs: real)
    reads t
  {
    && t.commandString == commandString && t.executeType == executeType && t.startMs == nowMs
    && t.durationMs.None? && t.firstFetchMs.None? && !t.errored
  }

  class RelationalDiagnosticListener {
    /** Commands executing, by command id. */
    var commands: map<Guid, CustomTiming>
    /** Commands whose data reader is still open, by command id. */
    var readers: map<Guid, CustomTiming>
    /** Connections opening, by connection id. */
    var opening: map<Guid, CustomTiming>
    /** Connections closing, by connection id. */
    var closing: map<Guid, CustomTiming>

    constructor ()
      ensures commands == map[] && readers == map[] && opening == map[] && closing == map[]
    {
      commands := map[];
      readers := map[];
      opening := map[];
      closing := map[];
    }

    /** The timings an event may finish: the one tracked under the event's id
        in the maps the event removes from. */
    function Affected(key: EventKey, val: Payload): set<CustomTiming>
      reads this
    {
      match val
      case CommandData(_, id, _, _, _, _) =>
        if (key == CommandExecuted || key == CommandError) && id in commands then {commands[id]} else {}
      case DataReaderDisposingData(id) =>
        if key == DataReaderDisposing && id in readers then {readers[id]} else {}
      case ConnectionData(_, id, _, _) =>
        (if (key == ConnectionOpened || key == ConnectionError) && id in opening then {opening[id]} else {})
        + (if (key == ConnectionClosed || key == ConnectionError) && id in closing then {closing[id]} else {})
      case OtherData => {}
    }

    /** Handles one diagnostic event at profiler time `nowMs`. `created` is
        the timing this event opened, if any; the profiler files it under
        the `sql` category of its current step. */
    method OnNext(key: EventKey, val: Payload, current: Option<Profiler>, nowMs: real) returns (created: Option<CustomTiming>)
      modifies this, Affected(key, val)
      // Opening a timing: a command starting, or a connection starting to
      // open or close while connections are tracked, under a running profiler.
      ensures created.Some? <==>
        && Running(current)
        && ((key == CommandExecuting && val.CommandData?)
            || ((key == ConnectionOpening || key == ConnectionClosing) && val.ConnectionData? && TracksConnections(current)))
      ensures created.Some? ==> fresh(created.value)
      ensures created.Some? && key == CommandExecuting ==>
        && NewTiming(created.value, val.commandText + XRaySuffix(val.connection),
                     CommandExecuteType(val.executeMethod, val.isAsync), nowMs)
        && commands == old(commands)[val.commandId := created.value]
        && readers == old(readers) && opening == old(opening) && closing == old(closing)
      ensures created.Some? && key == ConnectionOpening ==>
        && NewTiming(created.value, OpenCommand(val.isAsync) + XRaySuffix(val.connection), OpenExecuteType(val.isAsync), nowMs)
        && opening == old(opening)[val.connectionId := created.value]
        && commands == old(commands) && readers == old(readers) && closing == old(closing)
      ensures created.Some? && key == ConnectionClosing ==>
        && NewTiming(created.value, CloseCommand(val.isAsync) + XRaySuffix(val.connection), CloseExecuteType(val.isAsync), nowMs)
        && closing == old(closing)[val.connectionId := created.value]
        && commands == old(commands) && readers == old(readers) && opening == old(opening)
      // A command returned: its timing is stopped, or, when it returned a
      // data reader, moves to the readers with its first fetch recorded.
      ensures key == CommandExecuted && val.CommandData? && val.stage.Executed? && val.commandId in old(commands) ==>
        var t := old(commands)[val.commandId];
        && commands == old(commands) - {val.commandId}
        && (if val.stage.resultIsDataReader
            then readers == old(readers)[val.commandId := t] && FirstFetchAt(t, nowMs)
            else readers == old(readers) && StoppedAt(t, nowMs))
        && opening == old(opening) && closing == old(closing)
      // A command failed: its timing is flagged and stopped.
      ensures key == CommandError && val.CommandData? && val.stage.Failed? && val.commandId in old(commands) ==>
        && ErroredAndStoppedAt(old(commands)[val.commandId], nowMs)
        && commands == old(commands) - {val.commandId}
        && readers == old(readers) && opening == old(opening) && closing == old(closing)
      // A data reader is disposed: the command's timing is stopped.
      ensures key == DataReaderDisposing && val.DataReaderDisposingData? && val.commandId in old(readers) ==>
        && StoppedAt(old(readers)[val.commandId], nowMs)
        && readers == old(readers) - {val.commandId}
        && commands == old(commands) && opening == old(opening) && closing == old(closing)
      // A connection opened or closed (any end event, errors included).
      ensures key == ConnectionOpened && val.ConnectionData? && !val.connStage.Starting? && val.connectionId in old(opening) ==>
        && StoppedAt(old(opening)[val.connectionId], nowMs)
        && opening == old(opening) - {val.connectionId}
        && commands == old(commands) && readers == old(readers) && closing == old(closing)
      ensures key == ConnectionClosed && val.ConnectionData? && !val.connStage.Starting? && val.connectionId in old(closing) ==>
        && StoppedAt(old(closing)[val.connectionId], nowMs)
        && closing == old(closing) - {val.connectionId}
        && commands == old(commands) && readers == old(readers) && opening == old(opening)
      // A connection failed: whatever it was opening or closing is flagged,
      // not stopped, and forgotten.
      ensures key == ConnectionError && val.ConnectionData? && val.connStage.Errored? ==>
        && (val.connectionId in old(opening) ==> MarkedErrored(old(opening)[val.connectionId]))
        && (val.connectionId in old(closing) ==> MarkedErrored(old(closing)[val.connectionId]))
        && opening == old(opening) - {val.connectionId}
        && closing == old(closing) - {val.connectionId}
        && commands == old(commands) && readers == old(readers)
      // Every other event, payload or missing entry leaves the listener alone.
      ensures !Handled(key, val, current, old(commands), old(readers), old(opening), old(closing)) ==>
        && created.None?
        && commands == old(commands) && readers == old(readers) && opening == old(opening) && closing == old(closing)
    {
      created := None;
      match key
      case CommandExecuting => created := OnCommandExecuting(val, current, nowMs);
      case CommandExecuted => OnCommandExecuted(val, nowMs);
      case CommandError => OnCommandError(val, nowMs);
      case DataReaderDisposing => OnDataReaderDisposing(val, nowMs);
      case ConnectionOpening => created := OnConnectionOpening(val, current, nowMs);
      case ConnectionOpened => OnConnectionOpened(val, nowMs);
      case ConnectionClosing => created := OnConnectionClosing(val, current, nowMs);
      case ConnectionClosed => OnConnectionClosed(val, nowMs);
      case ConnectionError => OnConnectionError(val);
      case OtherEvent =>
    }

    // One handler per event, as `OnNext` dispatches them.

    method OnCommandExecuting(val: Payload, current: Option<Profiler>, nowMs: real) returns (created: Option<CustomTiming>)
      modifies this
      ensures created.Some? <==> val.CommandData? && Running(current)
      ensures created.Some? ==>
        && fresh(created.value)
        && NewTiming(created.value, val.commandText + XRaySuffix(val.connection),
                     CommandExecuteType(val.executeMethod, val.isAsync), nowMs)
        && commands == old(commands)[val.commandId := created.value]
      ensures created.None? ==> commands == old(commands)
      ensures readers == old(readers) && opening == old(opening) && closing == old(closing)
    {
      created := None;
      if val.CommandData? && Running(current) {
        var t := NewTaggedTiming(val.commandText, CommandExecuteType(val.executeMethod, val.isAsync), val.connection, nowMs);
        commands := commands[val.commandId := t];
        created := Some(t);
      }
    }

    method OnCommandExecuted(val: Payload, nowMs: real)
      modifies this, Affected(CommandExecuted, val)
      ensures val.CommandData? && val.stage.Executed? && val.commandId in old(commands) ==>
        var t := old(commands)[val.commandId];
        && commands == old(commands) - {val.commandId}
        && (if val.stage.resultIsDataReader
            then readers == old(readers)[val.commandId := t] && FirstFetchAt(t, nowMs)
            else readers == old(readers) && StoppedAt(t, nowMs))
      ensures !(val.CommandData? && val.stage.Executed? && val.commandId in old(commands)) ==>
        commands == old(commands) && readers == old(readers)
      ensures opening == old(opening) && closing == old(closing)
    {
      if val.CommandData? && val.stage.Executed? && val.commandId in commands {
        var t := commands[val.commandId];
        commands := commands - {val.commandId};
        if val.stage.resultIsDataReader {
          readers := readers[val.commandId := t];
          t.FirstFetchCompleted(nowMs);
        } else {
          t.Stop(nowMs);
        }
      }
    }

    method OnCommandError(val: Payload, nowMs: real)
      modifies this, Affected(CommandError, val)
      ensures val.CommandData? && val.stage.Failed? && val.commandId in old(commands) ==>
        && ErroredAndStoppedAt(old(commands)[val.commandId], nowMs)
        && commands == old(commands) - {val.commandId}
      ensures !(val.CommandData? && val.stage.Failed? && val.commandId in old(commands)) ==> commands == old(commands)
      ensures readers == old(readers) && opening == old(opening) && closing == old(closing)
    {
      if val.CommandData? && val.stage.Failed? && val.commandId in commands {
        var t := commands[val.commandId];
        commands := commands - {val.commandId};
        t.errored := true;
        t.Stop(nowMs);
      }
    }

    method OnDataReaderDisposing(val: Payload, nowMs: real)
      modifies this, Affected(DataReaderDisposing, val)
      ensures val.DataReaderDisposingData? && val.commandId in old(readers) ==>
        && StoppedAt(old(readers)[val.commandId], nowMs)
        && readers == old(readers) - {val.commandId}
      ensures !(val.DataReaderDisposingData? && val.commandId in old(readers)) ==> readers == old(readers)
      ensures commands == old(commands) && opening == old(opening) && closing == old(closing)
    {
      if val.DataReaderDisposingData? && val.commandId in readers {
        var t := readers[val.commandId];
        readers := readers - {val.commandId};
        t.Stop(nowMs);
      }
    }

    method OnConnectionOpening(val: Payload, current: Option<Profiler>, nowMs: real) returns (created: Option<CustomTiming>)
      modifies this
      ensures created.Some? <==> val.ConnectionData? && TracksConnections(current) && Running(current)
      ensures created.Some? ==>
        && fresh(created.value)
        && NewTiming(created.value, OpenCommand(val.isAsync) + XRaySuffix(val.connection), OpenExecuteType(val.isAsync), nowMs)
        && opening == old(opening)[val.connectionId := created.value]
      ensures created.None? ==> opening == old(opening)
      ensures commands == old(commands) && readers == old(readers) && closing == old(closing)
    {
      created := None;
      if val.ConnectionData? && TracksConnections(current) && Running(current) {
        var t := NewTaggedTiming(OpenCommand(val.isAsync), OpenExecuteType(val.isAsync), val.connection, nowMs);
        opening := opening[val.connectionId := t];
        created := Some(t);
      }
    }

    method OnConnectionOpened(val: Payload, nowMs: real)
      modifies this, Affected(ConnectionOpened, val)
      ensures val.ConnectionData? && !val.connStage.Starting? && val.connectionId in old(opening) ==>
        && StoppedAt(old(opening)[val.connectionId], nowMs)
        && opening == old(opening) - {val.connectionId}
      ensures !(val.ConnectionData? && !val.connStage.Starting? && val.connectionId in old(opening)) ==> opening == old(opening)
      ensures commands == old(commands) && readers == old(readers) && closing == old(closing)
    {
      if val.ConnectionData? && !val.connStage.Starting? && val.connectionId in opening {
        var t := opening[val.connectionId];
        opening := opening - {val.connectionId};
        t.Stop(nowMs);
      }
    }

    method OnConnectionClosing(val: Payload, current: Option<Profiler>, nowMs: real) returns (created: Option<CustomTiming>)
      modifies this
      ensures created.Some? <==> val.ConnectionData? && TracksConnections(current) && Running(current)
      ensures created.Some? ==>
        && fresh(created.value)
        && NewTiming(created.value, CloseCommand(val.isAsync) + XRaySuffix(val.connection), CloseExecuteType(val.isAsync), nowMs)
        && closing == old(closing)[val.connectionId := created.value]
      ensures created.None? ==> closing == old(closing)
      ensures commands == old(commands) && readers == old(readers) && opening == old(opening)
    {
      created := None;
      if val.ConnectionData? && TracksConnections(current) && Running(current) {
        var t := NewTaggedTiming(CloseCommand(val.isAsync), CloseExecuteType(val.isAsync), val.connection, nowMs);
        closing := closing[val.connectionId := t];
        created := Some(t);
      }
    }

    method OnConnectionClosed(val: Payload, nowMs: real)
      modifies this, Affected(ConnectionClosed, val)
      ensures val.ConnectionData? && !val.connStage.Starting? && val.connectionId in old(closing) ==>
        && StoppedAt(old(closing)[val.connectionId], nowMs)
        && closing == old(closing) - {val.connectionId}
      ensures !(val.ConnectionData? && !val.connStage.Starting? && val.connectionId in old(closing)) ==> closing == old(closing)
      ensures commands == old(commands) && readers == old(readers) && opening == old(opening)
    {
      if val.ConnectionData? && !val.connStage.Starting? && val.connectionId in closing {
        var t := closing[val.connectionId];
        closing := closing - {val.connectionId};
        t.Stop(nowMs);
      }
    }

    method OnConnectionError(val: Payload)
      modifies this, Affected(ConnectionError, val)
      ensures val.ConnectionData? && val.connStage.Errored? ==>
        && (val.connectionId in old(opening) ==> MarkedErrored(old(opening)[val.connectionId]))
        && (val.connectionId in old(closing) ==> MarkedErrored(old(closing)[val.connectionId]))
        && opening == old(opening) - {val.connectionId}
        && closing == old(closing) - {val.connectionId}
      ensures !(val.ConnectionData? && val.connStage.Errored?) ==> opening == old(opening) && closing == old(closing)
      ensures commands == old(commands) && readers == old(readers)
    {
      if val.ConnectionData? && val.connStage.Errored? {
        if val.connectionId in opening {
          var t := opening[val.connectionId];
          opening := opening - {val.connectionId};
          t.errored := true;
        }
        if val.connectionId in closing {
          var t := closing[val.connectionId];
          closing := closing - {val.connectionId};
          t.errored := true;
        }
      }
    }
  }

  /** A timing the profiler hands out at `nowMs`, its command string tagged
      with the connection's database and server. */
  method NewTaggedTiming(commandString: string, executeType: string, connection: DbConnection, nowMs: real)
    returns (t: CustomTiming)
    ensures fresh(t)
    ensures NewTiming(t, commandString + XRaySuffix(connection), executeType, nowMs)
  {
    t := new CustomTiming(commandString, executeType, nowMs);
    t.commandString := t.commandString + "\n/*XRAY ";
    t.commandString := t.commandString + connection.database + "@" + connection.dataSource;
    t.commandString := t.commandString + " */";
  }

  /** Whether `OnNext` acts on an event, given the maps before it. */
  predicate Handled(key: EventKey, val: Payload, current: Option<Profiler>,
                    commands: map<Guid, CustomTiming>, readers: map<Guid, CustomTiming>,
                    opening: map<Guid, CustomTiming>, closing: map<Guid, CustomTiming>)
  {
    match key
    case CommandExecuting => val.CommandData? && Running(current)
    case CommandExecuted => val.CommandData? && val.stage.Executed? && val.commandId in commands
    case CommandError => val.CommandData? && val.stage.Failed? && val.commandId in commands
    case DataReaderDisposing => val.DataReaderDisposingData? && val.commandId in readers
    case ConnectionOpening => val.ConnectionData? && TracksConnections(current) && Running(current)
    case ConnectionOpened => val.ConnectionData? && !val.connStage.Starting? && val.connectionId in opening
    case ConnectionClosing => val.ConnectionData? && TracksConnections(current) && Running(current)
    case ConnectionClosed => val.ConnectionData? && !val.connStage.Starting? && val.connectionId in closing
    case ConnectionError => val.ConnectionData? && val.connStage.Errored? && (val.connectionId in opening || val.connectionId in closing)
    case OtherEvent => false
  }

  // ---------------------------------------------------------------------
  // The tag survives the trip to X-Ray

  /** No occurrence of `pat` starts in `s` when the first character of
      `pat` is not in `s`. */
  lemma {:induction false} NoOccurrenceWithoutHead(s: string, pat: string)
    requires |pat| > 0 && pat[0] !in s
    ensures IndexOf(s, pat).None?
  {
    var r := IndexOf(s, pat);
    if r.Some? {
      CharAt(s, pat, r.value, 0);
    }
  }

  /** In a command string ending in a tag, the first marker line is the
      tag's own when the command text holds none. */
  lemma {:induction false} TagIsFirstMarkerLine(command: string, rest: string)
    requires forall j :: !OccursAt(command, Converter.MarkerLine, j)
    ensures IndexOf(command + Converter.MarkerLine + rest, Converter.MarkerLine) == Some(|command|)
  {
    var ml := Converter.MarkerLine;
    var s := command + ml + rest;
    assert s[|command|..|command| + |ml|] == ml;
    assert OccursAt(s, ml, |command|);
    var r := IndexOf(s, ml);
    var i := r.value;
    if i < |command| {
      if i + |ml| <= |command| {
        assert s[i..i + |ml|] == command[i..i + |ml|];
        assert OccursAt(command, ml, i);
      } else {
        CharAt(s, ml, i, |command| - i);
      }
    }
  }

  /** What is left of the tag after the marker line loses its closing mark. */
  lemma {:induction false} TagNameKept(name: string)
    requires '*' !in name && |name| > 0 && name[0] == ' '
    ensures Replace(name + Converter.MarkerClose, Converter.MarkerClose, "") == name
  {
    var pat := Converter.MarkerClose;
    forall i | 0 <= i < |name| ensures !OccursAt(name + pat, pat, i) {
      if OccursAt(name + pat, pat, i) {
        CharAt(name + pat, pat, i, 1);
      }
    }
    ReplaceDropsTrailing(name, pat);
  }

  /** The tag is the marker line followed by the name and the closing mark. */
  lemma {:induction false} SuffixShape(command: string, connection: DbConnection, name: string)
    requires name == " " + connection.database + "@" + connection.dataSource
    ensures command + XRaySuffix(connection) == command + Converter.MarkerLine + (name + Converter.MarkerClose)
  {
  }

  /** `SplitSql` on a command holding the marker that splits into two pieces. */
  lemma {:induction false} SplitSqlTwoPieces(s: string, executeType: string, query: string, rest: string)
    requires Contains(s, Converter.Marker)
    requires Split(s, Converter.MarkerLine) == [query, rest]
    ensures Converter.SplitSql(s, executeType) == Ok((Replace(rest, Converter.MarkerClose, ""), query))
  {
  }

  /** Splitting on a separator that occurs first at the end of `command`
      and never in `rest` gives the two back. */
  lemma {:induction false} SplitAtFirst(command: string, sep: string, rest: string)
    requires |sep| > 0
    requires IndexOf(command + sep + rest, sep) == Some(|command|)
    requires IndexOf(rest, sep).None?
    ensures Split(command + sep + rest, sep) == [command, rest]
  {
    var s := command + sep + rest;
    assert s[..|command|] == command;
    assert s[|command| + |sep|..] == rest;
  }

  lemma {:induction false} MarkerInTag(command: string, rest: string)
    ensures Contains(command + Converter.MarkerLine + rest, Converter.Marker)
  {
    var s := command + Converter.MarkerLine + rest;
    assert s[|command| + 1..|command| + 1 + |Converter.Marker|] == Converter.Marker;
    assert OccursAt(s, Converter.Marker, |command| + 1);
  }

  /** A command the listener tagged comes back apart in the exporter: the
      query is the command text as it was, and the subsegment is named
      `" database@server"`, leading space included. This holds when the
      command text holds no marker line and the database and server names
      have no line break and no `*`. */
  lemma {:induction false} TagRoundTrip(command: string, connection: DbConnection, executeType: string)
    requires forall j :: !OccursAt(command, Converter.MarkerLine, j)
    requires '\n' !in connection.database && '\n' !in connection.dataSource
    requires '*' !in connection.database && '*' !in connection.dataSource
    ensures Converter.SplitSql(command + XRaySuffix(connection), executeType)
         == Ok((" " + connection.database + "@" + connection.dataSource, command))
  {
    var name := " " + connection.database + "@" + connection.dataSource;
    var rest := name + Converter.MarkerClose;
    var s := command + XRaySuffix(connection);
    SuffixShape(command, connection, name);
    TagIsFirstMarkerLine(command, rest);
    MarkerInTag(command, rest);
    assert '\n' !in rest;
    NoOccurrenceWithoutHead(rest, Converter.MarkerLine);
    SplitAtFirst(command, Converter.MarkerLine, rest);
    assert '*' !in name;
    TagNameKept(name);
    SplitSqlTwoPieces(s, executeType, command, rest);
  }

  /** The SQL timing of a tagged command becomes, in the trace, a `remote`
      subsegment named `" database@server"` whose query is the command text
      as it was, timed from the trace start like any other. */
  lemma {:induction false} TaggedCommandExported(base: real, command: string, connection: DbConnection, executeType: string,
                                                 startMs: real, durationMs: Option<real>)
    requires forall j :: !OccursAt(command, Converter.MarkerLine, j)
    requires '\n' !in connection.database && '\n' !in connection.dataSource
    requires '*' !in connection.database && '*' !in connection.dataSource
    ensures var start := base + startMs / 1000.0;
      Converter.SqlSubsegment(base, CustomTimingData(executeType, command + XRaySuffix(connection), startMs, durationMs))
      == Ok(XRay.Subsegment(" " + connection.database + "@" + connection.dataSource, start, XRay.EndTime(start, durationMs),
                            Some(Converter.RemoteNamespace), Some(command), [], []))
  {
    var t := CustomTimingData(executeType, command + XRaySuffix(connection), startMs, durationMs);
    TagRoundTrip(command, connection, executeType);
    Converter.SqlSubsegmentOfSplit(base, t, " " + connection.database + "@" + connection.dataSource, command);
  }
}
