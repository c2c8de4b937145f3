# Ensure operations of the Inedo Windows extension, in Dafny

This project models the decision and sequencing logic of three "ensure" operations in the Inedo Windows extension. Each operation reads a desired-state template and inspects the target. It then leaves the target alone, changes it, or (in a simulation) only reports. The project proves what these operations promise.

- **Ensure-DscScript** (`EnsurePSDscScriptOperation`). It validates the template. It stages a PowerShell DSC script asset, and optionally a configuration-data asset, into content-addressed temp files. The staging directory carries the upper-case hex SHA-1 of the content. It then submits PowerShell jobs to the agent's remote job executer:
  - Configure discovers the configuration names, compiles them, and starts each configuration in turn.
  - Collect discovers, compiles, enables PowerShell remoting, and tests. It then folds the per-configuration `InDesiredState` answers into one `Configured` flag with `bool.Parse`.
- **Ensure-Site**, current revision. It makes a named IIS site exist with the template's settings, or makes it absent. A site it creates listens on the port of the first binding.
- **Ensure-Site**, older revision. It is the same state machine, but it creates the site from a binding protocol and binding information. Its description is only "Ensure" and the name.

## Layout

- `wrappers.dfy`:
  - `Wrappers`: `Option` and `Result`.
  - `Diagnostics`: log entries and their levels.
- `dotnet_text.dfy` (`DotNetText`), the .NET string behaviour the operations rely on:
  - `String.IsNullOrWhiteSpace` and `IsNullOrEmpty`;
  - ordinal comparison ignoring case;
  - `Boolean.Parse` and `Boolean.ToString`;
  - `Int32.Parse` and `Int32.ToString`;
  - `Split(new[] { "::" }, 2, ...).Last()`.
- `dotnet_path.dfy` (`DotNetPath`): `Path.Combine`, `GetDirectoryName`, `GetFileName` and `GetFileNameWithoutExtension`, on Windows separators.
- `remote_jobs.dfy` (`RemoteJobs`): what a PowerShell job returns. That is loosely typed variables, the messages it logged, and whether it completed or threw.
- `documentation.dfy` (`Documentation`): rich descriptions and the configuration indexer.
- `ensure_dsc.dfy` (`EnsurePSDscScript`): the DSC operation.
  - Spec functions state each step as a function of the host before it. The host is the files written, the jobs submitted and the log. These functions are `Validation`, `ScriptStaging`, `ConfigDataStaging`, `Submission`, `NameDiscovery`, `Compilation`, `RemotingEnablement`, `Testing`, `Starts`, `Enactment`, `Configuration`, `Inspection` and `Collection`.
  - The class `EnsureDscOperation` holds the host as mutable fields. Each of its methods ensures that the new state and the result are the step's spec function applied to the old state.
  - Lemmas prove what the steps mean.
- `web_administration.dfy` (`WebAdministration`): the `ServerManager` of Microsoft.Web.Administration as a class. It has an in-memory `sites` map and a `committed` map, which is what the server stores.
- `iis_site_messages.dfy` (`IisSiteMessages`): the log lines both IIS revisions write.
- `ensure_iis_site.dfy` (`EnsureIisSite`) and `ensure_iis_site_legacy.dfy` (`EnsureIisSiteLegacy`): the two IIS revisions.
  - `Reconciled` states what a configure run stores, logs and throws.
  - `RemoteConfigureAsync` performs the run on a `ServerManager`, and is proved equal to `Reconciled`.
  - The lemmas about `Reconciled` give its meaning.

The environment the DSC operation calls into is one value, `Environment`:
- the temp directory;
- the asset store;
- SHA-1 over the UTF-8 bytes of a text;
- the remote job executer. Its answer to a job may depend on every job submitted before.

On the IIS side, `SetMwaSite` (write the template's settings into a site) and `FromMwaSite` (read a site back into a configuration) are function parameters.

## Model

| member | source | states |
|---|---|---|
| `EnsurePSDscScript.GetDescription` | Windows/InedoExtension/Operations/EnsurePSDscScriptOperation.cs:32-37 | The short description is the plain text "Ensures a DSC configuration". The long description is one fixed part. |
| `EnsurePSDscScript.DescriptionIgnoresConfiguration` | Windows/InedoExtension/Operations/EnsurePSDscScriptOperation.cs:32-37 | The description is the same whatever the operation is configured with. |
| `EnsurePSDscScript.ValidationMeaning` | Windows/InedoExtension/Operations/EnsurePSDscScriptOperation.cs:356-369 | A null template throws "template not set" and changes nothing. Otherwise validation passes exactly when an asset or a path names the script. A failure appends exactly one error to the log. |
| `EnsurePSDscScript.MissingScriptDoesNothing` | Windows/InedoExtension/Operations/EnsurePSDscScriptOperation.cs:94-99 | With neither script asset nor script path, configure and collect only log the error: no file is written and no job is submitted. Configure returns normally. Collect returns a new configuration whose `Configured` is true. |
| `EnsurePSDscScript.EnsureDscOperation.ValidateConfiguration` | Windows/InedoExtension/Operations/EnsurePSDscScriptOperation.cs:356-369 | The new state and the result are `Validation` of the old state. |
| `EnsurePSDscScript.Hash` | Windows/InedoExtension/Operations/EnsurePSDscScriptOperation.cs:372-387 | The loop appends "X2" per digest byte. It returns the hex text of the SHA-1 digest in byte order: 40 upper-case hex digits. |
| `EnsurePSDscScript.HexOfShape` | Windows/InedoExtension/Operations/EnsurePSDscScriptOperation.cs:379-385 | Two upper-case hex digits per byte. |
| `EnsurePSDscScript.HexDigitRoundTrip` | Windows/InedoExtension/Operations/EnsurePSDscScriptOperation.cs:382 | Every nibble written as a hex digit reads back as that nibble. |
| `EnsurePSDscScript.ParseHexOfHexOf` | Windows/InedoExtension/Operations/EnsurePSDscScriptOperation.cs:379-385 | The hex text of a digest parses back into exactly that digest. |
| `EnsurePSDscScript.HexOfInjective` | Windows/InedoExtension/Operations/EnsurePSDscScriptOperation.cs:372-387 | Different digests give different hex texts. |
| `DotNetText.SplitInTwoLastWithout` | Windows/InedoExtension/Operations/EnsurePSDscScriptOperation.cs:135 | With no separator, the last piece of a two-way split is the whole string. |
| `DotNetText.SplitInTwoLastAfterFirst` | Windows/InedoExtension/Operations/EnsurePSDscScriptOperation.cs:135 | With the separator first occurring at i, the string is its prefix, the separator, then the last piece. |
| `EnsurePSDscScript.AssetNameOfReference` | Windows/InedoExtension/Operations/EnsurePSDscScriptOperation.cs:135 | For "raft::name" with a raft free of ':', the asset name is everything after the first "::", later "::" included. |
| `EnsurePSDscScript.AssetNameOfPlainName` | Windows/InedoExtension/Operations/EnsurePSDscScriptOperation.cs:158 | A reference without "::" is its own asset name. |
| `DotNetPath.GetFileNameWithoutExtension` | Windows/InedoExtension/Operations/EnsurePSDscScriptOperation.cs:142 | The base name holds no directory or volume separator. |
| `DotNetPath.DirectoryOfCombine` | Windows/InedoExtension/Operations/EnsurePSDscScriptOperation.cs:160-162 | The directory of `Combine(dir, name)` is `dir` when `name` holds no separator. |
| `DotNetPath.FileNameOfCombine` | Windows/InedoExtension/Operations/EnsurePSDscScriptOperation.cs:142 | The file name of `Combine(dir, name)` is `name` when `name` holds no separator. |
| `EnsurePSDscScript.HexHasNoNameBoundary` | Windows/InedoExtension/Operations/EnsurePSDscScriptOperation.cs:139 | The hash is a single path segment. |
| `EnsurePSDscScript.WithExtensionHasNoNameBoundary` | Windows/InedoExtension/Operations/EnsurePSDscScriptOperation.cs:142 | A base name plus an extension is still a single path segment. |
| `EnsurePSDscScript.ScriptStagingLayout` | Windows/InedoExtension/Operations/EnsurePSDscScriptOperation.cs:135-145 | The staged script is named basename(asset) + ".ps1". It sits in a directory named by the hex hash of its content, and that directory sits in temp/assetName. |
| `EnsurePSDscScript.ScriptStagingIsContentAddressed` | Windows/InedoExtension/Operations/EnsurePSDscScriptOperation.cs:139-142 | For the same asset name, two contents share a staging path exactly when their SHA-1 digests agree. |
| `EnsurePSDscScript.ConfigDataBesideScript` | Windows/InedoExtension/Operations/EnsurePSDscScriptOperation.cs:158-162 | Configuration data is staged in the script's directory, named basename(asset) + ".psd1". |
| `EnsurePSDscScript.StagingIsRepeatable` | Windows/InedoExtension/Operations/EnsurePSDscScriptOperation.cs:129-150 | Staging again from the same store gives the same path and the same files. |
| `EnsurePSDscScript.EnsureDscOperation.GetScriptPath` | Windows/InedoExtension/Operations/EnsurePSDscScriptOperation.cs:129-150 | The new state and the result are `ScriptStaging` of the old state. That is the template's path when there is no asset. Otherwise the asset's content is written to its staging path and that path is returned. A missing asset throws. |
| `EnsurePSDscScript.EnsureDscOperation.GetConfigDataPath` | Windows/InedoExtension/Operations/EnsurePSDscScriptOperation.cs:152-170 | The new state and the result are `ConfigDataStaging` of the old state. That is the given path when there is no asset. Otherwise the asset's content is written beside the script. |
| `EnsurePSDscScript.EnsureDscOperation.ExecuteJob` | Windows/InedoExtension/Operations/EnsurePSDscScriptOperation.cs:88-90 | The new state and the result are `Submission` of the old state. The job is recorded and the job's messages are logged. A faulted job throws. |
| `EnsurePSDscScript.SubmissionRecords` | Windows/InedoExtension/Operations/EnsurePSDscScriptOperation.cs:88-90 | A submission appends exactly its job to the trace and writes no file. The job's answer depends on the jobs submitted before, not on the log. |
| `EnsurePSDscScript.EnsureDscOperation.GetDscConfigurationNamesFromScript` | Windows/InedoExtension/Operations/EnsurePSDscScriptOperation.cs:172-220 | The new state and the result are `NameDiscovery` of the old state. The `results` list is cast item by item to strings. |
| `EnsurePSDscScript.TextItems` | Windows/InedoExtension/Operations/EnsurePSDscScriptOperation.cs:217 | The cast succeeds exactly when every item is a string. It then keeps every item, in order, as its text. Otherwise it throws a type mismatch on `results`. |
| `EnsurePSDscScript.TextItemsOfTextList` | Windows/InedoExtension/Operations/EnsurePSDscScriptOperation.cs:216-219 | Names passed to a job as a string array and returned in `results` read back as exactly those names. |
| `EnsurePSDscScript.EnsureDscOperation.CompileDscConfigurationsInScript` | Windows/InedoExtension/Operations/EnsurePSDscScriptOperation.cs:249-294 | The new state and the result are `Compilation` of the old state: one compile job with the script path, the names and the configuration-data path. |
| `EnsurePSDscScript.EnsureDscOperation.EnsurePsRemotingEnabled` | Windows/InedoExtension/Operations/EnsurePSDscScriptOperation.cs:223-247 | The new state and the result are `RemotingEnablement` of the old state: one job with no variables. |
| `EnsurePSDscScript.EnsureDscOperation.TestDscConfigurationsInScript` | Windows/InedoExtension/Operations/EnsurePSDscScriptOperation.cs:304-348 | The new state and the result are `Testing` of the old state. |
| `EnsurePSDscScript.TestingMeaning` | Windows/InedoExtension/Operations/EnsurePSDscScriptOperation.cs:304-348 | Testing submits exactly the test job and writes no file. It succeeds exactly when the job completes, returns a dictionary, and every value parses as a boolean. The answer is then "all true", and the log gains the job's messages plus one line per configuration that is not in the desired state. |
| `EnsurePSDscScript.EnsureDscOperation.FoldTestResults` | Windows/InedoExtension/Operations/EnsurePSDscScriptOperation.cs:336-347 | The loop over the results logs exactly the fold's messages and returns the fold's answer or exception. Files and jobs are unchanged. |
| `EnsurePSDscScript.TallyExtend` | Windows/InedoExtension/Operations/EnsurePSDscScriptOperation.cs:337-343 | One more result after readable ones does one of three things. A value that does not parse throws, naming the configuration. A true value changes nothing. A false value logs the configuration and clears the flag. |
| `EnsurePSDscScript.TallyStopsAtFailure` | Windows/InedoExtension/Operations/EnsurePSDscScriptOperation.cs:337-339 | Once the fold has thrown, later results change nothing. |
| `EnsurePSDscScript.UnsatisfiedAppend` | Windows/InedoExtension/Operations/EnsurePSDscScriptOperation.cs:341 | The unsatisfied configurations of a longer list are those of the prefix, then those of the last result. |
| `EnsurePSDscScript.TallyMeaning` | Windows/InedoExtension/Operations/EnsurePSDscScriptOperation.cs:336-347 | The fold succeeds exactly when every value parses. It then returns whether all are true: true for an empty list. It has logged every configuration that is not in the desired state, in order. It does not stop at the first. |
| `EnsurePSDscScript.ReadableTallyOk` | Windows/InedoExtension/Operations/EnsurePSDscScriptOperation.cs:336-347 | If every value parses, the fold does not throw. |
| `EnsurePSDscScript.TallyFailsAt` | Windows/InedoExtension/Operations/EnsurePSDscScriptOperation.cs:339 | A value that does not parse, after readable ones, throws and names its configuration. |
| `EnsurePSDscScript.FirstUnreadableThrows` | Windows/InedoExtension/Operations/EnsurePSDscScriptOperation.cs:339 | The exception names the first value that is null or not "true"/"false", never a later one. |
| `DotNetText.BooleanRoundTrip` | Windows/InedoExtension/Operations/EnsurePSDscScriptOperation.cs:339 | `bool.Parse` reads back "True"/"False" and "true"/"false". |
| `DotNetText.BooleanParseRejects` | Windows/InedoExtension/Operations/EnsurePSDscScriptOperation.cs:339 | Null, and any token other than true/false in any case (after trimming), are refused rather than read as false. |
| `DotNetText.BooleanParseExamples` | Windows/InedoExtension/Operations/EnsurePSDscScriptOperation.cs:339 | "True", "true" and "FALSE" parse. Null throws `ArgumentNullException`. |
| `DotNetText.BooleanParseRefusesYes` | Windows/InedoExtension/Operations/EnsurePSDscScriptOperation.cs:339 | "yes" throws a format error. |
| `EnsurePSDscScript.EnsureDscOperation.ConfigureAsync` | Windows/InedoExtension/Operations/EnsurePSDscScriptOperation.cs:39-92 | The new state and the result are `Configuration` of the old state. |
| `EnsurePSDscScript.EnsureDscOperation.Enact` | Windows/InedoExtension/Operations/EnsurePSDscScriptOperation.cs:47-91 | The new state and the result are `Enactment` of the old state. |
| `EnsurePSDscScript.SimulationSubmitsNoJob` | Windows/InedoExtension/Operations/EnsurePSDscScriptOperation.cs:44-56 | A simulation submits no job. It still stages exactly the files a real run stages. |
| `EnsurePSDscScript.StartJobsCons` | Windows/InedoExtension/Operations/EnsurePSDscScriptOperation.cs:69-71 | The first start job is for `dir/names[0]`, followed by the start jobs of the rest. |
| `EnsurePSDscScript.StartsTrace` | Windows/InedoExtension/Operations/EnsurePSDscScriptOperation.cs:69-91 | The start loop writes no file. It succeeds exactly when every start job, submitted after those before it, completes. Then it has submitted one start job per name in discovery order, each on `dir/name`. Otherwise there is a job k that faulted while every job before it completed, and job k was the last one submitted. |
| `EnsurePSDscScript.StartsRecordPlan` | Windows/InedoExtension/Operations/EnsurePSDscScriptOperation.cs:69-91 | A successful loop submits exactly the planned start jobs and writes no file. |
| `EnsurePSDscScript.StartsShift` | Windows/InedoExtension/Operations/EnsurePSDscScriptOperation.cs:69-91 | After the first start job, the k-th job's history is that job followed by the first k-1 jobs of the rest. |
| `EnsurePSDscScript.StartsSucceed` | Windows/InedoExtension/Operations/EnsurePSDscScriptOperation.cs:69-91 | The loop succeeds exactly when every start job completes. |
| `EnsurePSDscScript.StartsStopAtFault` | Windows/InedoExtension/Operations/EnsurePSDscScriptOperation.cs:69-91 | A failing loop has a job k that faulted while every job before it completed, so k is the first fault. Nothing after job k was submitted. |
| `EnsurePSDscScript.StartsWithinPlan` | Windows/InedoExtension/Operations/EnsurePSDscScriptOperation.cs:69-91 | The start jobs submitted are a prefix of the planned ones, and all of them on success. |
| `EnsurePSDscScript.CompileThenStart` | Windows/InedoExtension/Operations/EnsurePSDscScriptOperation.cs:64-91 | After discovery, the compile job goes out, then a prefix of the start jobs. On success that is the whole plan. If the compile job faults, the run throws and no start job is sent. |
| `EnsurePSDscScript.EnactmentFollowsPlan` | Windows/InedoExtension/Operations/EnsurePSDscScriptOperation.cs:57-91 | A real run writes no file. If discovery throws, only the discovery job was sent. Otherwise the jobs sent are discover, compile, then a prefix of one start per discovered name. On success they are the whole plan. If the compile job faults, the run throws and discover and compile are the only jobs sent. That a failing start job stops all later ones is `StartsStopAtFault`. |
| `EnsurePSDscScript.EnsureDscOperation.CollectAsync` | Windows/InedoExtension/Operations/EnsurePSDscScriptOperation.cs:94-127 | The new state and the result are `Collection` of the old state. |
| `EnsurePSDscScript.EnsureDscOperation.Inspect` | Windows/InedoExtension/Operations/EnsurePSDscScriptOperation.cs:103-126 | The new state and the result are `Inspection` of the old state. |
| `EnsurePSDscScript.InspectionJobs` | Windows/InedoExtension/Operations/EnsurePSDscScriptOperation.cs:109-115 | Collecting writes no file. A successful collect submits exactly discover, compile, enable remoting, then test, in that order. A faulting discover, compile or remoting job throws and is the last job submitted. |
| `EnsurePSDscScript.InspectionConfigured` | Windows/InedoExtension/Operations/EnsurePSDscScriptOperation.cs:115-126 | A successful collect returns the template's paths, assets and logging flags. `Configured` is set to whether every configuration reported the desired state to the test job. |
| `WebAdministration.ServerManager.constructor` | Windows/Inedo.Windows.Common/Operations/IIS/Sites/EnsureIisSiteOperation.cs:88 | A new manager holds the stored sites and the server's application pools. |
| `WebAdministration.ServerManager.AddSite` | Windows/Inedo.Windows.Common/Operations/IIS/Sites/EnsureIisSiteOperation.cs:108 | Adds one site bound to the port and leaves what is stored unchanged. |
| `WebAdministration.ServerManager.AddSiteWithBinding` | Windows/Inedo.Windows.Common/Windows/Operations/IIS/Sites/EnsureIisSiteOperation.cs:96 | Adds one site bound by protocol and binding information, and leaves what is stored unchanged. |
| `WebAdministration.ServerManager.UpdateSite` | Windows/Inedo.Windows.Common/Operations/IIS/Sites/EnsureIisSiteOperation.cs:119 | Replaces that site only, in memory. |
| `WebAdministration.ServerManager.RemoveSite` | Windows/Inedo.Windows.Common/Operations/IIS/Sites/EnsureIisSiteOperation.cs:130 | Removes that site only, in memory. |
| `WebAdministration.ServerManager.CommitChanges` | Windows/Inedo.Windows.Common/Operations/IIS/Sites/EnsureIisSiteOperation.cs:134-135 | Stores the in-memory sites. |
| `EnsureIisSite.RemoteConfigureAsync` | Windows/Inedo.Windows.Common/Operations/IIS/Sites/EnsureIisSiteOperation.cs:85-141 | What the run leaves stored, its log and its exception are `Reconciled` of the server before it. |
| `EnsureIisSite.EnsureExists` | Windows/Inedo.Windows.Common/Operations/IIS/Sites/EnsureIisSiteOperation.cs:91-137 | On a freshly opened manager, what is stored, the log and the exception are `Ensured` of what was stored. |
| `EnsureIisSite.CreateSite` | Windows/Inedo.Windows.Common/Operations/IIS/Sites/EnsureIisSiteOperation.cs:102-115 | Throws exactly when not simulating and the first binding is missing or its port is not a 32-bit number. Nothing is stored then. Otherwise, unless simulating, it adds and commits the site on that port. |
| `EnsureIisSite.ApplyConfiguration` | Windows/Inedo.Windows.Common/Operations/IIS/Sites/EnsureIisSiteOperation.cs:117-137 | Unless simulating, writes the settings into the found site and commits. A simulation changes nothing. |
| `EnsureIisSite.EnsureRemoved` | Windows/Inedo.Windows.Common/Operations/IIS/Sites/EnsureIisSiteOperation.cs:121-137 | On a freshly opened manager, what is stored and the log are `Removed` of what was stored. |
| `EnsureIisSite.RemoteCollectAsync` | Windows/Inedo.Windows.Common/Operations/IIS/Sites/EnsureIisSiteOperation.cs:68-82 | An absent site is reported as `{Name, Exists = false}`, with a "does not exist" line. A present one is reported as `FromMwaSite` reads it. |
| `EnsureIisSite.DescriptionSaysDoesNotExist` | Windows/Inedo.Windows.Common/Operations/IIS/Sites/EnsureIisSiteOperation.cs:53-65 | The long description is "does not exist" exactly when the pool or the path is null or empty, or Exists equals "false" ignoring case. Otherwise it highlights the pool and the path. The short description highlights the name. |
| `EnsureIisSite.SimulationChangesNothing` | Windows/Inedo.Windows.Common/Operations/IIS/Sites/EnsureIisSiteOperation.cs:85-141 | A simulation stores exactly what was stored, and never throws. |
| `EnsureIisSite.OnlyNamedSiteChanges` | Windows/Inedo.Windows.Common/Operations/IIS/Sites/EnsureIisSiteOperation.cs:88-135 | Every site other than the template's is stored as before. |
| `EnsureIisSite.MissingPoolRefused` | Windows/Inedo.Windows.Common/Operations/IIS/Sites/EnsureIisSiteOperation.cs:93-100 | A named pool the server lacks gives a lookup line plus one error, nothing changed and no exception. |
| `EnsureIisSite.FailureChangesNothing` | Windows/Inedo.Windows.Common/Operations/IIS/Sites/EnsureIisSiteOperation.cs:102-110 | A run throws exactly when it must create the site, is not simulating, and has no binding or an unreadable port. A run that throws stores nothing, with `SetMwaSite` taken never to throw. |
| `EnsureIisSite.ExistenceMatchesIntent` | Windows/Inedo.Windows.Common/Operations/IIS/Sites/EnsureIisSiteOperation.cs:90-135 | After a real run that went through with its pool present, the site is stored exactly when Exists is set. It then carries the template's settings. |
| `EnsureIisSite.CreatedOnFirstBindingPort` | Windows/Inedo.Windows.Common/Operations/IIS/Sites/EnsureIisSiteOperation.cs:107-108 | A created site is the new site on the port its first binding writes in decimal, with the settings applied. |
| `DotNetText.Int32RoundTrip` | Windows/Inedo.Windows.Common/Operations/IIS/Sites/EnsureIisSiteOperation.cs:108 | `int.Parse` reads back every 32-bit value that `ToString` writes. |
| `EnsureIisSite.SecondRunIsSteady` | Windows/Inedo.Windows.Common/Operations/IIS/Sites/EnsureIisSiteOperation.cs:102-127 | When applying the settings twice is the same as applying them once, a second real run on what the first stored stores exactly the same sites. |
| `EnsureIisSite.SecondRunNeverCreates` | Windows/Inedo.Windows.Common/Operations/IIS/Sites/EnsureIisSiteOperation.cs:102-127 | For any way of applying the settings, a second real run on what the first stored never creates again and never throws. With Exists it finds the site and only re-applies; without Exists it finds no site and warns. |
| `EnsureIisSiteLegacy.RemoteConfigureAsync` | Windows/Inedo.Windows.Common/Windows/Operations/IIS/Sites/EnsureIisSiteOperation.cs:74-129 | What the run leaves stored and its log are `Reconciled` of the server before it. |
| `EnsureIisSiteLegacy.EnsureExists` | Windows/Inedo.Windows.Common/Windows/Operations/IIS/Sites/EnsureIisSiteOperation.cs:80-125 | On a freshly opened manager, what is stored and the log are `Ensured` of what was stored. |
| `EnsureIisSiteLegacy.EnsureRemoved` | Windows/Inedo.Windows.Common/Windows/Operations/IIS/Sites/EnsureIisSiteOperation.cs:109-125 | On a freshly opened manager, what is stored and the log are `Removed` of what was stored. |
| `EnsureIisSiteLegacy.RemoteCollectAsync` | Windows/Inedo.Windows.Common/Windows/Operations/IIS/Sites/EnsureIisSiteOperation.cs:57-71 | An absent site is reported as `{Name, Exists = false}`. A present one is reported as `FromMwaSite` reads it. |
| `EnsureIisSiteLegacy.DescriptionNamesSiteOnly` | Windows/Inedo.Windows.Common/Windows/Operations/IIS/Sites/EnsureIisSiteOperation.cs:46-54 | The description is "Ensure " with the highlighted name, and has no long part. It depends on the name alone. |
| `EnsureIisSiteLegacy.SimulationChangesNothing` | Windows/Inedo.Windows.Common/Windows/Operations/IIS/Sites/EnsureIisSiteOperation.cs:74-129 | A simulation stores exactly what was stored. |
| `EnsureIisSiteLegacy.OnlyNamedSiteChanges` | Windows/Inedo.Windows.Common/Windows/Operations/IIS/Sites/EnsureIisSiteOperation.cs:79-123 | Every site other than the template's is stored as before. |
| `EnsureIisSiteLegacy.MissingPoolRefused` | Windows/Inedo.Windows.Common/Windows/Operations/IIS/Sites/EnsureIisSiteOperation.cs:82-89 | A named pool the server lacks gives a lookup line plus one error, and nothing changes. |
| `EnsureIisSiteLegacy.ExistenceMatchesIntent` | Windows/Inedo.Windows.Common/Windows/Operations/IIS/Sites/EnsureIisSiteOperation.cs:91-119 | After a real run with its pool present, the site is stored exactly when Exists is set. A created site is bound by the template's protocol and binding information, with the settings applied. |
| `EnsureIisSiteLegacy.SecondRunIsSteady` | Windows/Inedo.Windows.Common/Windows/Operations/IIS/Sites/EnsureIisSiteOperation.cs:91-115 | When applying the settings twice is the same as applying them once, a second real run on what the first stored stores exactly the same sites. |
| `EnsureIisSiteLegacy.SecondRunNeverCreates` | Windows/Inedo.Windows.Common/Windows/Operations/IIS/Sites/EnsureIisSiteOperation.cs:91-115 | For any way of applying the settings, a second real run on what the first stored never creates again. With Exists it finds the site and only re-applies; without Exists it finds no site and warns. |

## Left out

- The remote job executer is a function of the jobs submitted before. The agent connection, `async`/`await` and cancellation are not modelled; a cancelled job is a job that faulted.
- The embedded PowerShell scripts are opaque. This covers AST parsing, compiling to MOF files, `Enable-PSRemoting`, `Test-DscConfiguration` and `Start-DscConfiguration`. The model keeps only which script a job runs, with which variables, and what it returns.
- The debug echo of each job's script text, when `DebugLogging` is set (EnsurePSDscScriptOperation.cs lines 85-86, 209-210, 242-243, 289-290, 329-330), is not logged by the model.
- SHA-1 and UTF-8 encoding are one uninterpreted parameter, `sha1`, returning 20 bytes. The model only proves the hex formatting around it.
- `Path.GetTempPath` is a parameter. `Directory.CreateDirectory` is not modelled: the file map has no directories.
- `DotNetPath.Combine` always inserts one `\`. Rooted second arguments and trailing separators are not modelled. An empty first argument also gets the separator: .NET gives `b` for `Combine("", b)`, the model `\b`. So a script path with no directory, such as `Setup.ps1`, gives the start jobs a `configDir` of `\Web` where .NET gives `Web`, and the configuration-data path differs the same way.
- `DotNetPath.GetDirectoryName` returns the text before the last separator as written. .NET also normalizes the result: `/` becomes `\`, so the model keeps `C:/a` where .NET gives `C:\a`. For a drive-relative path such as `C:s.ps1`, .NET returns `C:` and the model returns the empty string. The start jobs' `configDir` and the staged configuration-data path inherit these differences.
- Fetching an asset (`PSUtil.GetScriptTextAsync`) is a lookup in the asset store. A missing asset throws `AssetNotFound`.
- Ordinal comparison ignoring case upper-cases ASCII letters only.
- A null item in the discovered name list is treated as a type mismatch. `Cast<string>` would let it through as a null name.
- `Compare` (EnsurePSDscScriptOperation.cs lines 351-354) only defers to the base class, which is not part of this model.
- `Complete(...)` at the end of collect is taken to return the configuration it is given.
- `PSDscScriptConfiguration` is a record of the fields the operation reads and writes. These are the script path and asset, the configuration-data path and asset, the two logging flags, and `Configured`, which defaults to true. The declaring file's current revision names other fields (`FilePath`, `ConfigNames`). The model follows the operation's code.
- IIS collection lookups are case-sensitive in the model. IIS compares site and pool names ignoring case.
- `IisSiteConfiguration.SetMwaSite` and `FromMwaSite` are parameters, total functions that never throw. In both revisions a site being created is committed bare before `SetMwaSite` runs: in the current revision `Operations/IIS/Sites/EnsureIisSiteOperation.cs` commits at line 109 and calls `SetMwaSite` at line 119. The older revision commits at line 97 and calls it at line 107. If `SetMwaSite` threw, the bare site would stay stored and the run would throw.
- `EnsureIisSite.FailureChangesNothing`: "a run that throws stores nothing" holds only because `SetMwaSite` is taken to be total. A throw from `SetMwaSite` after the first commit is not modelled.
- `BindingInfo.FromMap` is not part of this model: a binding is the record it produces.
- A null `Bindings` list is treated like an empty one. Both make `First()` throw.
- IIS's own checks when a site is added or committed are not modelled. This covers port range, duplicate bindings, and malformed binding information in the older revision.
- A `Site` is a value. The in-place `SetMwaSite` becomes a replacement of the site under its name.
- `PSExecuteOperation`, `DictionaryConfiguration2`, `StopAppPoolOperation` and `StartSiteOperation` are not part of this model.
- Log sinks and the rendering of rich descriptions are not modelled.
- Where one source method is long, the model splits it into several methods:
  - `EnsureIisSite.CreateSite`, `EnsureIisSite.EnsureExists`, `EnsureIisSite.ApplyConfiguration` and `EnsureIisSite.EnsureRemoved`, and the two legacy methods, are parts of one `RemoteConfigureAsync`.
  - `EnsureDscOperation.Enact` is the part of `ConfigureAsync` after staging.
  - `EnsureDscOperation.Inspect` is the part of `CollectAsync` after staging.
  - `EnsureDscOperation.FoldTestResults` is the loop inside `TestDscConfigurationsInScript`.
