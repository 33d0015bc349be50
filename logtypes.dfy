/**
 * Log record shapes: the lines the request logger stores, and the entries the
 * log viewer receives (either a plain string or a structured record).
 */
module LogTypes {
  import opened Strings
  import opened Json

  datatype Level = Debug | Info | Warn | Error

  const AllLevels: set<Level> := {Debug, Info, Warn, Error}

  lemma AllLevelsComplete()
    ensures forall l: Level :: l in AllLevels
  {
    forall l: Level ensures l in AllLevels {
      match l
      case Debug =>
      case Info =>
      case Warn =>
      case Error =>
    }
  }

  function LevelName(l: Level): string {
    match l
    case Debug => "debug"
    case Info => "info"
    case Warn => "warn"
    case Error => "error"
  }

  /** `level.toUpperCase()`. */
  function LevelUpper(l: Level): string {
    match l
    case Debug => "DEBUG"
    case Info => "INFO"
    case Warn => "WARN"
    case Error => "ERROR"
  }

  datatype ToolCallInfo = ToolCallInfo(name: string, input: Json, startTime: int)

  datatype ToolResultInfo = ToolResultInfo(name: string, output: Json, duration: int, success: bool)

  datatype StepInfo = StepInfo(name: string, phase: string)

  /** One stored line of a request's log. */
  datatype LogLine = LogLine(
    ts: string,
    level: Level,
    reqId: string,
    msg: string,
    data: Option<Json>,
    toolCall: Option<ToolCallInfo>,
    toolResult: Option<ToolResultInfo>,
    duration: Option<int>,
    step: Option<StepInfo>)

  /** The optional fields a logging call adds after the data. */
  datatype Extra = Extra(
    toolCall: Option<ToolCallInfo>,
    toolResult: Option<ToolResultInfo>,
    duration: Option<int>,
    step: Option<StepInfo>)

  const NoExtra := Extra(None, None, None, None)

  /** A timestamp as the viewer may receive it: an ISO string or epoch milliseconds. */
  datatype Stamp = StampText(text: string) | StampMillis(ms: int)

  /** An entry handed to the log viewer. */
  datatype LogEntry =
    | Text(text: string)
    | Record(
        ts: Option<Stamp>,
        level: Option<Level>,
        msg: string,
        data: Option<Json>,
        toolCall: Option<ToolCallInfo>,
        toolResult: Option<ToolResultInfo>,
        duration: Option<int>,
        step: Option<StepInfo>)

  /** A stored line as the viewer sees it. */
  function AsEntry(l: LogLine): LogEntry {
    Record(Some(StampText(l.ts)), Some(l.level), l.msg, l.data, l.toolCall, l.toolResult, l.duration, l.step)
  }
}
