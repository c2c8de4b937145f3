/**
 * What comes back from a PowerShell job run on the agent by the remote job
 * executer: the messages the script logged, and either the requested output
 * variables or a failure (the executer throws; a cancelled job is a failure too).
 * Output values are loosely typed, as the script produced them.
 */
module RemoteJobs {
  import opened Wrappers
  import opened Diagnostics
  import DotNetText

  /** A value captured from a PowerShell variable. */
  datatype Value =
    | Null
    | Text(text: string)
    | Boolean(flag: bool)
    | List(items: seq<Value>)
    | Dictionary(entries: seq<(string, Value)>)

  /** `value?.ToString()`: null stays null; a collection renders as its .NET type name. */
  function ToStringOrNull(v: Value): Option<string>
  {
    match v
    case Null => None
    case Text(s) => Some(s)
    case Boolean(b) => Some(DotNetText.BooleanToString(b))
    case List(_) => Some("System.Collections.Generic.List`1[System.Object]")
    case Dictionary(_) => Some("System.Collections.Generic.Dictionary`2[System.String,System.Object]")
  }

  /** A nullable string passed to a job as a variable. */
  function NullableText(s: Option<string>): Value
  {
    match s
    case None => Null
    case Some(t) => Text(t)
  }

  /** A string array passed to a job as a variable. */
  function TextList(names: seq<string>): Value
  {
    List(seq(|names|, i requires 0 <= i < |names| => Text(names[i])))
  }

  datatype Outcome = Completed(outVariables: map<string, Value>) | Faulted

  datatype JobResult = JobResult(messages: seq<LogEntry>, outcome: Outcome)
}
