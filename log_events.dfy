/**
 * LinuxEventGenerator and LinuxAppServiceEventGenerator: the host's
 * diagnostic events as comma-separated lines, each handed with a target file
 * name (functionslogs.log, functionsmetrics.log, functionsdetails.log) to the
 * event writer. Free-text columns are quoted and have their newlines
 * replaced, so that one event is one line and a regular expression can find
 * the columns again.
 */
module LinuxEvents {
  import opened Common

  const FunctionsLogsFileName := "functionslogs.log"
  const FunctionsMetricsFileName := "functionsmetrics.log"
  const FunctionsDetailsFileName := "functionsdetails.log"

  // Microsoft.Extensions.Logging.LogLevel
  const LogLevelTrace := 0
  const LogLevelDebug := 1
  const LogLevelInformation := 2
  const LogLevelWarning := 3
  const LogLevelError := 4
  const LogLevelCritical := 5
  const LogLevelNone := 6

  // System.Diagnostics.Tracing.EventLevel
  const EventLevelLogAlways := 0
  const EventLevelCritical := 1
  const EventLevelError := 2
  const EventLevelWarning := 3
  const EventLevelInformational := 4
  const EventLevelVerbose := 5

  /** ToEventLevel(level): the ETW mapping; every value outside Trace..Critical is LogAlways. */
  function ToEventLevel(level: int): (r: int)
    ensures EventLevelLogAlways <= r <= EventLevelVerbose
    ensures r == EventLevelLogAlways <==> !(LogLevelTrace <= level <= LogLevelCritical)
    ensures level == LogLevelTrace || level == LogLevelDebug ==> r == EventLevelVerbose
    ensures level == LogLevelInformation ==> r == EventLevelInformational
    ensures level == LogLevelWarning ==> r == EventLevelWarning
    ensures level == LogLevelError ==> r == EventLevelError
    ensures level == LogLevelCritical ==> r == EventLevelCritical
  {
    if level == LogLevelTrace || level == LogLevelDebug then EventLevelVerbose
    else if level == LogLevelInformation then EventLevelInformational
    else if level == LogLevelWarning then EventLevelWarning
    else if level == LogLevelError then EventLevelError
    else if level == LogLevelCritical then EventLevelCritical
    else EventLevelLogAlways
  }

  /** A more severe log level never maps to a less severe event level (a smaller EventLevel is more severe). */
  lemma ToEventLevelKeepsSeverityOrder(a: int, b: int)
    requires LogLevelTrace <= a <= b <= LogLevelCritical
    ensures ToEventLevel(b) <= ToEventLevel(a)
  {
  }

  /** NormalizeString(value): newlines become spaces, and the value is wrapped in double quotes. */
  function NormalizeString(value: string): (r: string)
    ensures |r| == |value| + 2 && r[0] == '"' && r[|r| - 1] == '"'
    ensures '\n' !in r
    ensures forall i :: 0 <= i < |value| ==> r[i + 1] == if value[i] == '\n' then ' ' else value[i]
    ensures '\n' !in value ==> r == "\"" + value + "\""
    ensures ',' !in value ==> ',' !in r
  {
    ReplaceCharPointwise(value, '\n', ' ');
    var replaced := ReplaceChar(value, '\n', " ");
    assert '\n' !in replaced by {
      forall i | 0 <= i < |replaced| ensures replaced[i] != '\n' { }
    }
    assert ',' !in value ==> ',' !in replaced by {
      if ',' !in value {
        forall i | 0 <= i < |replaced| ensures replaced[i] != ',' { assert value[i] != ','; }
      }
    }
    assert '\n' !in value ==> replaced == value;
    "\"" + replaced + "\""
  }

  /** One call of the event writer: a file name and the line for it. */
  datatype LogWrite = LogWrite(fileName: string, line: string)

  function TraceFields(level: int, subscriptionId: string, appName: string, functionName: string, eventName: string,
                       source: string, details: string, summary: string, hostVersion: string, eventTimestamp: string,
                       exceptionType: string, exceptionMessage: string, functionInvocationId: string,
                       hostInstanceId: string, activityId: string): seq<string>
  {
    [IntToString(ToEventLevel(level)), subscriptionId, appName, functionName, eventName, source,
     NormalizeString(details), NormalizeString(summary), hostVersion, eventTimestamp, exceptionType,
     NormalizeString(exceptionMessage), functionInvocationId, hostInstanceId, activityId]
  }

  function MetricFields(subscriptionId: string, appName: string, functionName: string, eventName: string,
                        average: int, minimum: int, maximum: int, count: int, hostVersion: string, eventTimestamp: string)
    : seq<string>
  {
    [subscriptionId, appName, functionName, eventName, IntToString(average), IntToString(minimum),
     IntToString(maximum), IntToString(count), hostVersion, eventTimestamp]
  }

  function DetailsFields(siteName: string, functionName: string, inputBindings: string, outputBindings: string,
                         scriptType: string, isDisabled: bool): seq<string>
  {
    [siteName, functionName, NormalizeString(inputBindings), NormalizeString(outputBindings), scriptType,
     if isDisabled then "1" else "0"]
  }

  /** The details line the metric event also writes, whatever its arguments say. */
  function MetricDetailsLine(functionName: string): string
  {
    "siteName," + functionName + ",NormalizeString(inputBindings),NormalizeString(outputBindings),scriptType,1"
  }

  predicate NoCommaOrNewline(s: string)
  {
    ',' !in s && '\n' !in s
  }

  /**
   * A trace line is one line of the log file exactly when its unquoted
   * columns hold no newline: the free texts cannot break it.
   */
  lemma TraceLineIsOneLine(level: int, subscriptionId: string, appName: string, functionName: string,
                           eventName: string, source: string, details: string, summary: string,
                           hostVersion: string, eventTimestamp: string, exceptionType: string,
                           exceptionMessage: string, functionInvocationId: string,
                           hostInstanceId: string, activityId: string)
    ensures '\n' !in JoinCommas(TraceFields(level, subscriptionId, appName, functionName, eventName, source, details,
                                            summary, hostVersion, eventTimestamp, exceptionType, exceptionMessage,
                                            functionInvocationId, hostInstanceId, activityId)) <==>
            forall s <- [subscriptionId, appName, functionName, eventName, source, hostVersion, eventTimestamp,
                         exceptionType, functionInvocationId, hostInstanceId, activityId] :: '\n' !in s
  {
    var fs := TraceFields(level, subscriptionId, appName, functionName, eventName, source, details, summary,
                          hostVersion, eventTimestamp, exceptionType, exceptionMessage, functionInvocationId,
                          hostInstanceId, activityId);
    var unquoted := [subscriptionId, appName, functionName, eventName, source, hostVersion, eventTimestamp,
                     exceptionType, functionInvocationId, hostInstanceId, activityId];
    JoinCommasExcludes(fs, '\n');
    if forall s <- unquoted :: '\n' !in s {
      forall i | 0 <= i < |fs| ensures '\n' !in fs[i] {
        if i !in {0, 6, 7, 11} { assert fs[i] in unquoted; }
      }
    } else {
      var s :| s in unquoted && '\n' in s;
      assert s in fs;
    }
  }

  /**
   * A trace line whose columns hold no comma or newline splits back into its
   * fifteen columns: the event level, the values verbatim, and the three free
   * texts in quotes.
   */
  lemma ParseTraceLine(level: int, subscriptionId: string, appName: string, functionName: string,
                       eventName: string, source: string, details: string, summary: string,
                       hostVersion: string, eventTimestamp: string, exceptionType: string,
                       exceptionMessage: string, functionInvocationId: string,
                       hostInstanceId: string, activityId: string)
    requires forall s <- [subscriptionId, appName, functionName, eventName, source, details, summary, hostVersion,
                          eventTimestamp, exceptionType, exceptionMessage, functionInvocationId, hostInstanceId,
                          activityId] :: NoCommaOrNewline(s)
    ensures var parsed := SplitCommas(JoinCommas(TraceFields(level, subscriptionId, appName, functionName, eventName,
                                                             source, details, summary, hostVersion, eventTimestamp,
                                                             exceptionType, exceptionMessage, functionInvocationId,
                                                             hostInstanceId, activityId)));
            |parsed| == 15 && parsed[0] == IntToString(ToEventLevel(level))
            && parsed[1] == subscriptionId && parsed[2] == appName && parsed[3] == functionName
            && parsed[4] == eventName && parsed[5] == source && parsed[6] == "\"" + details + "\""
            && parsed[7] == "\"" + summary + "\"" && parsed[8] == hostVersion && parsed[9] == eventTimestamp
            && parsed[10] == exceptionType && parsed[11] == "\"" + exceptionMessage + "\""
            && parsed[12] == functionInvocationId && parsed[13] == hostInstanceId && parsed[14] == activityId
  {
    var fs := TraceFields(level, subscriptionId, appName, functionName, eventName, source, details, summary,
                          hostVersion, eventTimestamp, exceptionType, exceptionMessage, functionInvocationId,
                          hostInstanceId, activityId);
    var raw := [subscriptionId, appName, functionName, eventName, source, details, summary, hostVersion,
                eventTimestamp, exceptionType, exceptionMessage, functionInvocationId, hostInstanceId, activityId];
    assert NoCommaOrNewline(details) && NoCommaOrNewline(summary) && NoCommaOrNewline(exceptionMessage);
    forall i | 0 <= i < |fs| ensures ',' !in fs[i] {
      if i !in {0, 6, 7, 11} { assert fs[i] in raw; }
    }
    SplitJoinCommas(fs);
  }

  /**
   * A metric line whose text columns hold no comma splits back into its ten
   * columns, the four counters written in decimal.
   */
  lemma ParseMetricLine(subscriptionId: string, appName: string, functionName: string, eventName: string,
                        average: int, minimum: int, maximum: int, count: int, hostVersion: string, eventTimestamp: string)
    requires forall s <- [subscriptionId, appName, functionName, eventName, hostVersion, eventTimestamp] :: ',' !in s
    ensures var fs := MetricFields(subscriptionId, appName, functionName, eventName, average, minimum, maximum, count,
                                   hostVersion, eventTimestamp);
            SplitCommas(JoinCommas(fs)) == fs && |fs| == 10
  {
    var fs := MetricFields(subscriptionId, appName, functionName, eventName, average, minimum, maximum, count,
                           hostVersion, eventTimestamp);
    var text := [subscriptionId, appName, functionName, eventName, hostVersion, eventTimestamp];
    assert forall i :: 0 <= i < |fs| ==> ',' !in fs[i] by {
      forall i | 0 <= i < |fs| ensures ',' !in fs[i] {
        if i < 4 { assert fs[i] == text[i]; }
        else if i >= 8 { assert fs[i] == text[i - 4]; }
      }
    }
    SplitJoinCommas(fs);
  }

  /** A details line splits back into its six columns, the last one "1" exactly when the function is disabled. */
  lemma ParseDetailsLine(siteName: string, functionName: string, inputBindings: string, outputBindings: string,
                         scriptType: string, isDisabled: bool)
    requires forall s <- [siteName, functionName, inputBindings, outputBindings, scriptType] :: ',' !in s
    ensures var parsed := SplitCommas(JoinCommas(DetailsFields(siteName, functionName, inputBindings, outputBindings,
                                                               scriptType, isDisabled)));
            |parsed| == 6 && parsed[0] == siteName && parsed[1] == functionName
            && parsed[2] == NormalizeString(inputBindings) && parsed[3] == NormalizeString(outputBindings)
            && parsed[4] == scriptType && (parsed[5] == "1" <==> isDisabled) && (parsed[5] == "0" <==> !isDisabled)
  {
    var fs := DetailsFields(siteName, functionName, inputBindings, outputBindings, scriptType, isDisabled);
    assert ',' !in siteName && ',' !in functionName && ',' !in inputBindings && ',' !in outputBindings && ',' !in scriptType;
    assert forall i :: 0 <= i < |fs| ==> ',' !in fs[i] by {
      forall i | 0 <= i < |fs| ensures ',' !in fs[i] { }
    }
    SplitJoinCommas(fs);
  }

  class LinuxAppServiceEventGenerator {
    /** The `_writeEvent` calls made so far. */
    var writes: seq<LogWrite>

    constructor ()
      ensures writes == []
    {
      writes := [];
    }

    /** LogFunctionTraceEvent: one line to functionslogs.log; host version and time stamp are inputs. */
    method LogFunctionTraceEvent(level: int, subscriptionId: string, appName: string, functionName: string,
                                 eventName: string, source: string, details: string, summary: string,
                                 exceptionType: string, exceptionMessage: string, functionInvocationId: string,
                                 hostInstanceId: string, activityId: string, hostVersion: string, eventTimestamp: string)
      modifies this
      ensures writes == old(writes) + [LogWrite(FunctionsLogsFileName, JoinCommas(
                TraceFields(level, subscriptionId, appName, functionName, eventName, source, details, summary,
                            hostVersion, eventTimestamp, exceptionType, exceptionMessage, functionInvocationId,
                            hostInstanceId, activityId)))]
    {
      var line := JoinCommas([IntToString(ToEventLevel(level)), subscriptionId, appName, functionName, eventName, source,
                              NormalizeString(details), NormalizeString(summary), hostVersion, eventTimestamp,
                              exceptionType, NormalizeString(exceptionMessage), functionInvocationId, hostInstanceId,
                              activityId]);
      writes := writes + [LogWrite(FunctionsLogsFileName, line)];
    }

    /** LogFunctionMetricEvent: one line to functionsmetrics.log, then a fixed line to functionsdetails.log. */
    method LogFunctionMetricEvent(subscriptionId: string, appName: string, functionName: string, eventName: string,
                                  average: int, minimum: int, maximum: int, count: int,
                                  hostVersion: string, eventTimestamp: string)
      modifies this
      ensures writes == old(writes) + [
                LogWrite(FunctionsMetricsFileName, JoinCommas(MetricFields(subscriptionId, appName, functionName,
                                                                           eventName, average, minimum, maximum,
                                                                           count, hostVersion, eventTimestamp))),
                LogWrite(FunctionsDetailsFileName, MetricDetailsLine(functionName))]
    {
      var line := JoinCommas([subscriptionId, appName, functionName, eventName, IntToString(average),
                              IntToString(minimum), IntToString(maximum), IntToString(count), hostVersion,
                              eventTimestamp]);
      writes := writes + [LogWrite(FunctionsMetricsFileName, line)];
      writes := writes + [LogWrite(FunctionsDetailsFileName, MetricDetailsLine(functionName))];
    }

    /** LogFunctionDetailsEvent: one line to functionsdetails.log. */
    method LogFunctionDetailsEvent(siteName: string, functionName: string, inputBindings: string,
                                   outputBindings: string, scriptType: string, isDisabled: bool)
      modifies this
      ensures writes == old(writes) + [LogWrite(FunctionsDetailsFileName, JoinCommas(
                DetailsFields(siteName, functionName, inputBindings, outputBindings, scriptType, isDisabled)))]
    {
      var line := JoinCommas([siteName, functionName, NormalizeString(inputBindings), NormalizeString(outputBindings),
                              scriptType, if isDisabled then "1" else "0"]);
      writes := writes + [LogWrite(FunctionsDetailsFileName, line)];
    }

    /** LogFunctionExecutionAggregateEvent is not implemented on this platform. */
    method LogFunctionExecutionAggregateEvent(siteName: string, functionName: string, executionTimeInMs: int,
                                              functionStartedCount: int, functionCompletedCount: int,
                                              functionFailedCount: int) returns (r: Result<()>)
      ensures r == Err(NotImplemented)
    {
      r := Err(NotImplemented);
    }

    /** LogFunctionExecutionEvent is not implemented on this platform. */
    method LogFunctionExecutionEvent(executionId: string, siteName: string, concurrency: int, functionName: string,
                                     invocationId: string, executionStage: string, executionTimeSpan: int,
                                     success: bool) returns (r: Result<()>)
      ensures r == Err(NotImplemented)
    {
      r := Err(NotImplemented);
    }
  }
}
