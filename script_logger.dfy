/**
 * LinuxScriptLogger: the console logger of the script host on Linux. Each
 * event is one line, the stream name and a space followed by twenty
 * comma-separated columns; the container, stamp and tenant columns come
 * from the environment, read once at construction.
 */
module ScriptLogging {
  import opened Common
  import opened Environments
  import LinuxEvents

  const MaxDetailsLength := 10000
  const LinuxLogEventStreamName := "MS_FUNCTION_LOGS"
  const ContainerName := "CONTAINER_NAME"
  const WebSiteHomeStampName := "WEBSITE_HOME_STAMPNAME"
  const WebSiteStampDeploymentId := "WEBSITE_STAMP_DEPLOYMENT_ID"
  const DefaultContainerName := "T-CNAME"
  const DefaultStampName := "T-SNAME"
  const DefaultTenantId := "T-TID"

  /**
   * NormalizeString(value) of this logger: newlines become spaces and double
   * quotes become single quotes, so the only double quotes are the two the
   * value is wrapped in.
   */
  function NormalizeString(value: string): (r: string)
    ensures |r| == |value| + 2 && r[0] == '"' && r[|r| - 1] == '"'
    ensures forall i :: 0 < i < |r| - 1 ==> r[i] != '"' && r[i] != '\n'
    ensures forall i :: 0 <= i < |value| ==>
              r[i + 1] == if value[i] == '\n' then ' ' else if value[i] == '"' then '\'' else value[i]
    ensures ',' !in value ==> ',' !in r
  {
    ReplaceCharPointwise(value, '\n', ' ');
    var noNewlines := ReplaceChar(value, '\n', " ");
    ReplaceCharPointwise(noNewlines, '"', '\'');
    var replaced := ReplaceChar(noNewlines, '"', "'");
    assert ',' !in value ==> ',' !in replaced by {
      if ',' !in value {
        forall i | 0 <= i < |replaced| ensures replaced[i] != ',' { assert value[i] != ','; }
      }
    }
    "\"" + replaced + "\""
  }

  /** The details column is cut to its first MaxDetailsLength characters. */
  function TruncatedDetails(details: string): (r: string)
    ensures |r| <= MaxDetailsLength && r <= details
    ensures |details| <= MaxDetailsLength ==> r == details
    ensures |details| > MaxDetailsLength ==> |r| == MaxDetailsLength
  {
    if |details| > MaxDetailsLength then details[..MaxDetailsLength] else details
  }

  /** The arguments of LogFunctionTraceEvent, with the host version and the formatted time stamp. */
  datatype TraceEvent = TraceEvent(
    level: int, subscriptionId: string, appName: string, functionName: string, eventName: string,
    source: string, details: string, summary: string, exceptionType: string, exceptionMessage: string,
    functionInvocationId: string, hostInstanceId: string, activityId: string, runtimeSiteName: string,
    slotName: string, hostVersion: string, eventTimestamp: string)

  /** The container, stamp and tenant columns the logger fixes at construction. */
  datatype Identity = Identity(containerName: string, stampName: string, tenantId: string)

  /** The twenty columns of the line, in order. */
  function Columns(e: TraceEvent, id: Identity): seq<string>
  {
    [IntToString(LinuxEvents.ToEventLevel(e.level)), e.subscriptionId, e.appName, e.functionName, e.eventName,
     e.source, NormalizeString(TruncatedDetails(e.details)), NormalizeString(e.summary), e.hostVersion,
     e.eventTimestamp, e.exceptionType, NormalizeString(e.exceptionMessage), e.functionInvocationId,
     e.hostInstanceId, e.activityId, id.containerName, id.stampName, id.tenantId, e.runtimeSiteName, e.slotName]
  }

  function StreamLine(fields: seq<string>): string
  {
    LinuxLogEventStreamName + " " + JoinCommas(fields)
  }

  predicate CommaFree(fields: seq<string>)
  {
    forall i :: 0 <= i < |fields| ==> ',' !in fields[i]
  }

  /** No value of the event or the identity holds a comma. */
  predicate ValuesCommaFree(e: TraceEvent, id: Identity)
  {
    ',' !in e.subscriptionId && ',' !in e.appName && ',' !in e.functionName && ',' !in e.eventName
    && ',' !in e.source && ',' !in e.details && ',' !in e.summary && ',' !in e.exceptionType
    && ',' !in e.exceptionMessage && ',' !in e.functionInvocationId && ',' !in e.hostInstanceId
    && ',' !in e.activityId && ',' !in e.runtimeSiteName && ',' !in e.slotName && ',' !in e.hostVersion
    && ',' !in e.eventTimestamp && ',' !in id.containerName && ',' !in id.stampName && ',' !in id.tenantId
  }

  /** Comma-free values give comma-free columns: the quoting and the truncation add no comma. */
  lemma ColumnsCommaFree(e: TraceEvent, id: Identity)
    requires ValuesCommaFree(e, id)
    ensures CommaFree(Columns(e, id))
  {
    assert ',' !in TruncatedDetails(e.details) by {
      var t := TruncatedDetails(e.details);
      forall i | 0 <= i < |t| ensures t[i] != ',' { assert t[i] == e.details[i]; }
    }
  }

  /** A stream line is the stream name, a space, and the joined columns. */
  lemma StreamLinePrefix(fields: seq<string>)
    ensures var n := |LinuxLogEventStreamName| + 1;
            |StreamLine(fields)| >= n && StreamLine(fields)[..n] == LinuxLogEventStreamName + " "
            && StreamLine(fields)[n..] == JoinCommas(fields)
  {
  }

  /** A stream line of comma-free columns splits back into them after the stream name. */
  lemma ParseStreamLineColumns(fields: seq<string>)
    requires |fields| >= 1 && CommaFree(fields)
    ensures var n := |LinuxLogEventStreamName| + 1;
            |StreamLine(fields)| >= n && StreamLine(fields)[..n] == LinuxLogEventStreamName + " "
            && SplitCommas(StreamLine(fields)[n..]) == fields
  {
    StreamLinePrefix(fields);
    SplitJoinCommas(fields);
  }

  /**
   * A line whose values hold no comma starts with the stream name and a
   * space, and its remainder splits back into the twenty columns.
   */
  lemma ParseStreamLine(e: TraceEvent, id: Identity)
    requires ValuesCommaFree(e, id)
    ensures var line := StreamLine(Columns(e, id));
            var n := |LinuxLogEventStreamName| + 1;
            |line| >= n && line[..n] == LinuxLogEventStreamName + " "
            && SplitCommas(line[n..]) == Columns(e, id)
  {
    ColumnsCommaFree(e, id);
    ParseStreamLineColumns(Columns(e, id));
  }

  /**
   * The quoted columns: the details column holds at most MaxDetailsLength
   * characters between its quotes, and no quoted column holds a double quote
   * or a newline inside them.
   */
  lemma QuotedColumns(e: TraceEvent, id: Identity)
    ensures var c := Columns(e, id);
            |c[6]| <= MaxDetailsLength + 2
            && (|e.details| <= MaxDetailsLength ==> |c[6]| == |e.details| + 2)
            && forall k <- [6, 7, 11] :: c[k][0] == '"' && c[k][|c[k]| - 1] == '"'
                 && forall i :: 0 < i < |c[k]| - 1 ==> c[k][i] != '"' && c[k][i] != '\n'
  {
  }

  class LinuxScriptLogger {
    const containerName: string
    const stampName: string
    const tenantId: string
    /** The lines written to the console so far. */
    var events: seq<string>

    /** The constructor: missing variables fall back to fixed placeholders; present ones are case-normalised. */
    constructor (environment: ProcessEnvironment)
      ensures var c := environment.GetEnvironmentVariable(ContainerName);
              containerName == if c.Some? then ToUpper(c.value) else DefaultContainerName
      ensures var s := environment.GetEnvironmentVariable(WebSiteHomeStampName);
              stampName == if s.Some? then ToLower(s.value) else DefaultStampName
      ensures var t := environment.GetEnvironmentVariable(WebSiteStampDeploymentId);
              tenantId == if t.Some? then ToLower(t.value) else DefaultTenantId
      ensures events == []
    {
      var c := environment.GetEnvironmentVariable(ContainerName);
      var s := environment.GetEnvironmentVariable(WebSiteHomeStampName);
      var t := environment.GetEnvironmentVariable(WebSiteStampDeploymentId);
      containerName := if c.Some? then ToUpper(c.value) else DefaultContainerName;
      stampName := if s.Some? then ToLower(s.value) else DefaultStampName;
      tenantId := if t.Some? then ToLower(t.value) else DefaultTenantId;
      events := [];
    }

    function Id(): Identity
    {
      Identity(containerName, stampName, tenantId)
    }

    /** The private LogFunctionTraceEvent: the details are truncated, then the line is written. */
    method LogFunctionTraceEvent(e: TraceEvent)
      modifies this
      ensures events == old(events) + [StreamLine(Columns(e, Id()))]
    {
      var details := if |e.details| > MaxDetailsLength then e.details[..MaxDetailsLength] else e.details;
      var line := LinuxLogEventStreamName + " " + JoinCommas(
        [IntToString(LinuxEvents.ToEventLevel(e.level)), e.subscriptionId, e.appName, e.functionName, e.eventName,
         e.source, NormalizeString(details), NormalizeString(e.summary), e.hostVersion, e.eventTimestamp,
         e.exceptionType, NormalizeString(e.exceptionMessage), e.functionInvocationId, e.hostInstanceId,
         e.activityId, containerName, stampName, tenantId, e.runtimeSiteName, e.slotName]);
      events := events + [line];
    }

    /** Log(message): an Information event whose summary is the message; the other columns are fixed. */
    method Log(message: string, hostVersion: string, eventTimestamp: string)
      modifies this
      ensures events == old(events) + [StreamLine(Columns(LogEvent(message, hostVersion, eventTimestamp), Id()))]
    {
      LogFunctionTraceEvent(LogEvent(message, hostVersion, eventTimestamp));
    }
  }

  /** The event Log(message) writes. */
  function LogEvent(message: string, hostVersion: string, eventTimestamp: string): TraceEvent
  {
    TraceEvent(LinuxEvents.LogLevelInformation, "sub", "app", "func", "evt", "source", "details", message,
               "", "", "", "", "", "", "", hostVersion, eventTimestamp)
  }

  /** Log writes an Informational event: its level column is "4". */
  lemma LogLevelColumn()
    ensures IntToString(LinuxEvents.ToEventLevel(LinuxEvents.LogLevelInformation)) == "4"
  {
  }
}
