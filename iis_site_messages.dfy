/** What both revisions of the Ensure-Site operation log. */
module IisSiteMessages {
  import opened Diagnostics

  function LookingMessage(name: string): LogEntry
  {
    LogDebug("Looking for Site \"" + name + "\"...")
  }

  function PoolMissingMessage(pool: string): LogEntry
  {
    LogError("The specified application pool (" + pool + ") does not exist.")
  }

  const CreatingMessage: LogEntry := LogDebug("Does not exist. Creating...")

  function AddedMessage(name: string): LogEntry
  {
    LogInformation("Site \"" + name + "\" added.")
  }

  const ReloadingMessage: LogEntry := LogDebug("Reloading configuration...")
  const ApplyingMessage: LogEntry := LogDebug("Applying configuration...")
  const NoSiteMessage: LogEntry := LogWarning("Site does not exist.")
  const CommittingMessage: LogEntry := LogDebug("Committing configuration...")

  function DoneMessage(name: string, shouldExist: bool): LogEntry
  {
    LogInformation("Site \"" + name + "\" " + (if shouldExist then "configured" else "removed") + ".")
  }

  function AbsentMessage(name: string): LogEntry
  {
    LogInformation("Site \"" + name + "\" does not exist.")
  }
}
