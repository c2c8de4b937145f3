/** Option and Result: a C# `null` and a thrown exception, as values. */
module Wrappers {

  /** A value that may be absent; a nullable C# reference. */
  datatype Option<+T> = None | Some(value: T)

  /** The outcome of a call that either returns a value or throws. */
  datatype Result<+T, +E> = Ok(value: T) | Err(error: E)
}

/** The log the operations write to (Inedo.Diagnostics): a level and a message. */
module Diagnostics {

  datatype MessageLevel = Debug | Information | Warning | Error

  datatype LogEntry = LogEntry(level: MessageLevel, message: string)

  function LogDebug(message: string): LogEntry { LogEntry(Debug, message) }
  function LogInformation(message: string): LogEntry { LogEntry(Information, message) }
  function LogWarning(message: string): LogEntry { LogEntry(Warning, message) }
  function LogError(message: string): LogEntry { LogEntry(MessageLevel.Error, message) }
}
