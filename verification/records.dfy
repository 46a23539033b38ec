/** Log records, the standard levels and the handled-marker shared by every
    part of the aggregator. */
module Records {
  import opened Wrappers

  // Numeric values of the standard logging levels.
  const NOTSET: int := 0
  const DEBUG: int := 10
  const INFO: int := 20
  const WARNING: int := 30
  const ERROR: int := 40
  const CRITICAL: int := 50

  /** Exception information attached to a record, given by the lines the
      traceback formatter produces for it. */
  datatype ExcInfo = ExcInfo(formatted: seq<string>)

  /** A log record: the emitting logger's name, its numeric level, its
      message, the structured exception (if any), the exception rendered to
      text (if it has been), and the aggregator's handled-marker. */
  datatype LogRecord = LogRecord(
    name: string,
    levelno: int,
    msg: string,
    excInfo: Option<ExcInfo>,
    excText: Option<string>,
    handled: bool)

  /** The unit carried by the channel: a record with the id of the process
      that emitted it. */
  datatype Tagged = Tagged(pid: nat, record: LogRecord)

  /** A record as an application call site creates it. */
  function NewRecord(name: string, levelno: int, msg: string, excInfo: Option<ExcInfo>): (r: LogRecord)
    ensures !IsHandled(r)
    ensures r.name == name && r.levelno == levelno && r.msg == msg
    ensures r.excInfo == excInfo && r.excText == None
  {
    LogRecord(name, levelno, msg, excInfo, None, false)
  }

  /** Whether the record carries the handled-marker (absent means false). */
  predicate IsHandled(rec: LogRecord)
  {
    rec.handled
  }

  /** Sets the handled-marker and leaves every other attribute alone. */
  function MarkAsHandled(rec: LogRecord): (r: LogRecord)
    ensures IsHandled(r)
    ensures r.(handled := rec.handled) == rec
  {
    rec.(handled := true)
  }

  /** `sep.join(lines)`. */
  function Join(lines: seq<string>, sep: string): string
  {
    if |lines| == 0 then ""
    else if |lines| == 1 then lines[0]
    else lines[0] + sep + Join(lines[1..], sep)
  }

  /** The text that replaces a structured exception: the traceback lines
      joined with newlines. */
  function FormatException(e: ExcInfo): string
  {
    Join(e.formatted, "\n")
  }
}
