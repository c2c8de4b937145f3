/**
 * Ensure-DSCConfig: the operation that tests whether the configurations of a
 * PowerShell DSC script have been enacted on the agent (collect) and enacts them
 * (configure).
 *
 * What the operation does to the world is a `Host`: the files it stages, the jobs
 * it hands to the remote job executer, in order, and its log. Each step of the
 * operation is a method of `EnsureDscOperation` and is specified by a function
 * from the host before to the host after (`Step`); the lemmas at the end state
 * what those functions promise.
 */
module EnsurePSDscScript {
  import opened Wrappers
  import opened Diagnostics
  import opened DotNetText
  import opened DotNetPath
  import opened RemoteJobs
  import Documentation

  type Byte = x: int | 0 <= x < 256

  /** The operation describes itself the same way whatever it is configured with. */
  function GetDescription(config: map<string, string>): (d: Documentation.ExtendedRichDescription)
    ensures d.shortDescription.parts == [Documentation.Plain("Ensures a DSC configuration")]
    ensures d.longDescription.Some? && |d.longDescription.value.parts| == 1
  {
    Documentation.ExtendedRichDescription(
      Documentation.RichDescription([Documentation.Plain("Ensures a DSC configuration")]),
      Some(Documentation.RichDescription([Documentation.Plain(LongDescription)])))
  }

  const LongDescription: string :=
    "Tests whether or not a the specified DSC configuration has been enacted.  If not, then the configuration file is enacted."

  lemma {:induction false} DescriptionIgnoresConfiguration(c1: map<string, string>, c2: map<string, string>)
    ensures GetDescription(c1) == GetDescription(c2)
  {
  }

  /** A SHA-1 digest: 20 bytes. */
  type Sha1Digest = d: seq<Byte> | |d| == 20 witness seq(20, _ => 0)

  /** The persisted configuration, with the fields the operation reads and writes. */
  datatype PSDscScriptConfiguration = PSDscScriptConfiguration(
    Configured: bool,
    DscScriptPath: NString,
    DscScriptAsset: NString,
    DscConfigDataPath: NString,
    DscConfigDataAsset: NString,
    DebugLogging: bool,
    VerboseLogging: bool)

  /** `new PSDscScriptConfiguration()`: Configured defaults to true. */
  const DefaultConfiguration := PSDscScriptConfiguration(true, None, None, None, None, false, false)

  /** Why a run throws. */
  datatype DscError =
    | TemplateNotSet
    | AssetNotFound(reference: string)
    | JobFailed(script: Script)
    | MissingOutput(name: string)
    | TypeMismatch(name: string)
    | NotABoolean(configuration: string, cause: ParseError)

  /** The embedded PowerShell scripts; what they do on the agent is the remote side's business. */
  datatype Script =
    | FindConfigurationNames   // parse the script and list its configuration definitions
    | CompileConfigurations    // dot-source the script and compile each configuration into MOF files
    | EnablePSRemoting         // Enable-PSRemoting and trust the local host
    | TestConfigurations       // Test-DscConfiguration per configuration
    | StartConfiguration       // Start-DscConfiguration -Path $configDir -Wait

  datatype OutVariables = NoOutVariables | Named(names: seq<string>) | CollectOutputAsDictionary

  /** An ExecutePowerShellJob; `variables` is None where the source passes null. */
  datatype Job = Job(
    script: Script,
    variables: Option<map<string, Value>>,
    collectOutput: bool,
    logOutput: bool,
    outVariables: OutVariables,
    debugLogging: bool,
    verboseLogging: bool)

  /**
   * What the operation calls into and does not see: the temp directory, the asset
   * store, SHA-1 over the UTF-8 bytes of a text, and the remote job executer, whose
   * answer may depend on every job submitted before.
   */
  datatype Environment = Environment(
    tempPath: string,
    assets: string -> Option<string>,
    sha1: string -> Sha1Digest,
    remote: (seq<Job>, Job) -> JobResult)

  datatype Host = Host(files: map<string, string>, jobs: seq<Job>, log: seq<LogEntry>)

  /** The host after a step, and what the step returned or threw. */
  datatype Step<T> = Step(host: Host, result: Result<T, DscError>)
  {
    function Abort<U>(): Step<U>
      requires result.Err?
    {
      Step(host, Err(result.error))
    }
  }

  // ===========================================================================
  // Validation

  /** A script is named, by asset or by path. */
  predicate HasScript(t: PSDscScriptConfiguration)
  {
    !(IsNullOrWhiteSpace(t.DscScriptAsset) && IsNullOrWhiteSpace(t.DscScriptPath))
  }

  const MissingScriptMessage: string :=
    "DSC Configuration script missing. Specify a value for either \"DscScript Asset\" or \"DscScriptPath\"."

  function Validation(template: Option<PSDscScriptConfiguration>, h: Host): Step<bool>
  {
    if template.None? then Step(h, Err(TemplateNotSet))
    else if HasScript(template.value) then Step(h, Ok(true))
    else Step(h.(log := h.log + [LogError(MissingScriptMessage)]), Ok(false))
  }

  // ===========================================================================
  // Hash: upper-case hex of the digest

  predicate IsUpperHexDigit(c: char)
  {
    '0' <= c <= '9' || 'A' <= c <= 'F'
  }

  /** The digit `n` as format "X" writes it. */
  function HexDigit(n: nat): (c: char)
    requires n < 16
    ensures IsUpperHexDigit(c)
  {
    if n < 10 then ('0' as int + n) as char else ('A' as int + n - 10) as char
  }

  function HexDigitValue(c: char): (n: nat)
    requires IsUpperHexDigit(c)
    ensures n < 16
  {
    if c <= '9' then c as int - '0' as int else c as int - 'A' as int + 10
  }

  /** Byte.ToString("X2") */
  function ByteToX2(b: Byte): string
  {
    [HexDigit(b / 16), HexDigit(b % 16)]
  }

  /** Every byte of the digest as "X2", in byte order. */
  function HexOf(digest: seq<Byte>): string
    decreases |digest|
  {
    if digest == [] then "" else HexOf(digest[..|digest| - 1]) + ByteToX2(digest[|digest| - 1])
  }

  /** Hash(input): SHA-1 of the UTF-8 bytes of the input, appended byte by byte to a StringBuilder. */
  method Hash(sha1: string -> Sha1Digest, input: string) returns (hex: string)
    ensures hex == HexOf(sha1(input))
    ensures |hex| == 40 && forall i :: 0 <= i < |hex| ==> IsUpperHexDigit(hex[i])
  {
    var digest := sha1(input);
    hex := "";
    for i := 0 to |digest|
      invariant hex == HexOf(digest[..i])
    {
      assert digest[..i + 1][..i] == digest[..i];
      hex := hex + ByteToX2(digest[i]);
    }
    assert digest[..|digest|] == digest;
    HexOfShape(digest);
  }

  /** Reading "X2" pairs back into bytes. */
  function ParseHex(s: string): Option<seq<Byte>>
    decreases |s|
  {
    if s == [] then Some([])
    else if |s| < 2 || !IsUpperHexDigit(s[|s| - 2]) || !IsUpperHexDigit(s[|s| - 1]) then None
    else match ParseHex(s[..|s| - 2])
      case None => None
      case Some(front) => Some(front + [HexDigitValue(s[|s| - 2]) * 16 + HexDigitValue(s[|s| - 1])])
  }

  lemma {:induction false} HexOfShape(digest: seq<Byte>)
    ensures |HexOf(digest)| == 2 * |digest|
    ensures forall i :: 0 <= i < |HexOf(digest)| ==> IsUpperHexDigit(HexOf(digest)[i])
    decreases |digest|
  {
    if digest != [] {
      HexOfShape(digest[..|digest| - 1]);
    }
  }

  lemma {:induction false} HexDigitRoundTrip(n: nat)
    requires n < 16
    ensures HexDigitValue(HexDigit(n)) == n
  {
  }

  /** The hex text of a digest reads back as the digest. */
  lemma {:induction false} ParseHexOfHexOf(digest: seq<Byte>)
    ensures ParseHex(HexOf(digest)) == Some(digest)
    decreases |digest|
  {
    if digest != [] {
      var front := digest[..|digest| - 1];
      var b := digest[|digest| - 1];
      ParseHexOfHexOf(front);
      HexOfShape(digest);
      var s := HexOf(digest);
      assert s[..|s| - 2] == HexOf(front);
      HexDigitRoundTrip(b / 16);
      HexDigitRoundTrip(b % 16);
      assert front + [b] == digest;
    }
  }

  /** Different digests give different hex texts. */
  lemma {:induction false} HexOfInjective(d1: seq<Byte>, d2: seq<Byte>)
    requires HexOf(d1) == HexOf(d2)
    ensures d1 == d2
  {
    ParseHexOfHexOf(d1);
    ParseHexOfHexOf(d2);
  }

  // ===========================================================================
  // Staging the script and the configuration data

  /** Separates a raft from an asset name in an asset reference. */
  const AssetSeparator: string := "::"
  const ScriptExtension: string := ".ps1"
  const ConfigDataExtension: string := ".psd1"

  /** `reference.Split(new[] { "::" }, 2, StringSplitOptions.None).Last()` */
  function AssetName(reference: string): string
  {
    SplitInTwoLast(reference, AssetSeparator)
  }

  /** temp/assetName/HASH */
  function ScriptStagingDirectory(env: Environment, reference: string, contents: string): string
  {
    Combine(Combine(env.tempPath, AssetName(reference)), HexOf(env.sha1(contents)))
  }

  /** temp/assetName/HASH/basename(assetName).ps1 */
  function ScriptStagingPath(env: Environment, reference: string, contents: string): string
  {
    Combine(ScriptStagingDirectory(env, reference, contents), GetFileNameWithoutExtension(AssetName(reference)) + ScriptExtension)
  }

  /** GetScriptPath: the template's path, or the asset's contents written to its staging path. */
  function ScriptStaging(env: Environment, t: PSDscScriptConfiguration, h: Host): Step<string>
    requires HasScript(t)
  {
    if IsNullOrWhiteSpace(t.DscScriptAsset) then Step(h, Ok(t.DscScriptPath.value))
    else
      var reference := t.DscScriptAsset.value;
      match env.assets(reference)
      case None => Step(h, Err(AssetNotFound(reference)))
      case Some(contents) =>
        var path := ScriptStagingPath(env, reference, contents);
        Step(h.(files := h.files[path := contents]), Ok(path))
  }

  /** dirname(scriptPath)/basename(assetName).psd1 */
  function ConfigDataStagingPath(scriptPath: string, reference: string): string
  {
    Combine(GetDirectoryName(scriptPath), GetFileNameWithoutExtension(AssetName(reference)) + ConfigDataExtension)
  }

  /** GetConfigDataPath: the given path, or the asset's contents written beside the script. */
  function ConfigDataStaging(env: Environment, scriptPath: string, configDataPath: NString, configDataAsset: NString, h: Host): Step<NString>
  {
    if IsNullOrWhiteSpace(configDataAsset) then Step(h, Ok(configDataPath))
    else
      var reference := configDataAsset.value;
      var path := ConfigDataStagingPath(scriptPath, reference);
      match env.assets(reference)
      case None => Step(h, Err(AssetNotFound(reference)))
      case Some(contents) => Step(h.(files := h.files[path := contents]), Ok(Some(path)))
  }

  // ===========================================================================
  // Jobs

  /** The names of the variables passed to and read back from the jobs. */
  const ScriptPathVariable: string := "scriptPath"
  const ConfigNamesVariable: string := "configNames"
  const ConfigurationDataVariable: string := "ConfigurationData"
  const ResultsVariable: string := "results"
  const ConfigDirVariable: string := "configDir"

  function FindNamesJob(t: PSDscScriptConfiguration, scriptPath: string): Job
  {
    Job(FindConfigurationNames, Some(map[ScriptPathVariable := Text(scriptPath)]),
        true, true, Named([ResultsVariable]), t.DebugLogging, t.VerboseLogging)
  }

  function CompileJob(t: PSDscScriptConfiguration, scriptPath: string, names: seq<string>, configDataPath: NString): Job
  {
    Job(CompileConfigurations,
        Some(map[ScriptPathVariable := Text(scriptPath), ConfigNamesVariable := TextList(names), ConfigurationDataVariable := NullableText(configDataPath)]),
        true, true, NoOutVariables, t.DebugLogging, t.VerboseLogging)
  }

  function EnableRemotingJob(t: PSDscScriptConfiguration): Job
  {
    Job(EnablePSRemoting, None, true, true, CollectOutputAsDictionary, t.DebugLogging, t.VerboseLogging)
  }

  function TestJob(t: PSDscScriptConfiguration, scriptPath: string, names: seq<string>): Job
  {
    Job(TestConfigurations, Some(map[ScriptPathVariable := Text(scriptPath), ConfigNamesVariable := TextList(names)]),
        true, true, Named([ResultsVariable]), t.DebugLogging, t.VerboseLogging)
  }

  function StartJob(t: PSDscScriptConfiguration, configDir: string): Job
  {
    Job(StartConfiguration, Some(map[ConfigDirVariable := Text(configDir)]),
        false, false, NoOutVariables, t.DebugLogging, t.VerboseLogging)
  }

  /** One start job per configuration name, in order, each on dir/name. */
  function StartJobs(t: PSDscScriptConfiguration, dir: string, names: seq<string>): (jobs: seq<Job>)
  {
    seq(|names|, i requires 0 <= i < |names| => StartJob(t, Combine(dir, names[i])))
  }

  /** ExecuteJobAsync: the job is recorded, its messages logged, and a failure thrown. */
  function Submission(env: Environment, job: Job, h: Host): Step<map<string, Value>>
  {
    var answer := env.remote(h.jobs, job);
    var after := h.(jobs := h.jobs + [job], log := h.log + answer.messages);
    match answer.outcome
    case Completed(variables) => Step(after, Ok(variables))
    case Faulted => Step(after, Err(JobFailed(job.script)))
  }

  /** `((List<object>)OutVariables["results"]).Cast<string>()` */
  function ConfigurationNames(variables: map<string, Value>): Result<seq<string>, DscError>
  {
    if ResultsVariable !in variables then Err(MissingOutput(ResultsVariable))
    else match variables[ResultsVariable]
      case List(items) => TextItems(items)
      case _ => Err(TypeMismatch(ResultsVariable))
  }

  /** The cast succeeds exactly when every item is a string, keeping them in order; otherwise it throws. */
  function TextItems(items: seq<Value>): (r: Result<seq<string>, DscError>)
    ensures r.Ok? <==> forall i :: 0 <= i < |items| ==> items[i].Text?
    ensures r.Ok? ==> |r.value| == |items| && forall i :: 0 <= i < |items| ==> items[i] == Text(r.value[i])
    ensures r.Err? ==> r.error == TypeMismatch(ResultsVariable)
    decreases |items|
  {
    if items == [] then Ok([])
    else match TextItems(items[..|items| - 1])
      case Err(e) => Err(e)
      case Ok(front) =>
        match items[|items| - 1]
        case Text(s) => Ok(front + [s])
        case _ => Err(TypeMismatch(ResultsVariable))
  }

  /** The names handed to a job as a string array are read back as the same names. */
  lemma {:induction false} TextItemsOfTextList(names: seq<string>)
    ensures TextItems(TextList(names).items) == Ok(names)
  {
    var r := TextItems(TextList(names).items);
    assert r.Ok?;
    assert r.value == names by {
      forall i | 0 <= i < |names|
        ensures r.value[i] == names[i]
      {
        assert TextList(names).items[i] == Text(names[i]);
      }
    }
  }

  function NameDiscovery(env: Environment, t: PSDscScriptConfiguration, scriptPath: string, h: Host): Step<seq<string>>
  {
    var s := Submission(env, FindNamesJob(t, scriptPath), h);
    if s.result.Err? then s.Abort() else Step(s.host, ConfigurationNames(s.result.value))
  }

  function Compilation(env: Environment, t: PSDscScriptConfiguration, scriptPath: string, names: seq<string>,
                       configDataPath: NString, h: Host): Step<()>
  {
    var s := Submission(env, CompileJob(t, scriptPath, names, configDataPath), h);
    if s.result.Err? then s.Abort() else Step(s.host, Ok(()))
  }

  function RemotingEnablement(env: Environment, t: PSDscScriptConfiguration, h: Host): Step<()>
  {
    var s := Submission(env, EnableRemotingJob(t), h);
    if s.result.Err? then s.Abort() else Step(s.host, Ok(()))
  }

  /** `(Dictionary<string, object>)OutVariables["results"]` */
  function TestResults(variables: map<string, Value>): Result<seq<(string, Value)>, DscError>
  {
    if ResultsVariable !in variables then Err(MissingOutput(ResultsVariable))
    else match variables[ResultsVariable]
      case Dictionary(entries) => Ok(entries)
      case _ => Err(TypeMismatch(ResultsVariable))
  }

  const NotConfiguredPrefix: string := "DSC configuration '"
  const NotConfiguredSuffix: string := "' was not configured"
  const UsingConfigDataPrefix: string := "Using DSC Configuration Data from '"
  const QuoteSuffix: string := "'"
  const InvokingPrefix: string := "Invoking DSC Configuration '"
  const InvokingInfix: string := "' (Path: "
  const InvokingSuffix: string := ") ..."
  const EnactingPrefix: string := "Enacting DSC configuration '"
  const TestingPrefix: string := "Testing DSC Configuration '"
  const EllipsisSuffix: string := "' ..."

  function EnactingMessage(scriptPath: string): LogEntry
  {
    LogDebug(EnactingPrefix + scriptPath + EllipsisSuffix)
  }

  function TestingMessage(scriptPath: string): LogEntry
  {
    LogInformation(TestingPrefix + scriptPath + EllipsisSuffix)
  }

  function NotConfiguredMessage(name: string): LogEntry
  {
    LogInformation(NotConfiguredPrefix + name + NotConfiguredSuffix)
  }

  /** What folding the test results has logged so far, and the running `isConfigured` or the exception. */
  datatype Tally = Tally(messages: seq<LogEntry>, configured: Result<bool, DscError>)

  /** A test result as bool.Parse reads it: the configuration's name and its boolean, or why it is none. */
  type Reading = (string, Result<bool, ParseError>)

  function Readings(entries: seq<(string, Value)>): seq<Reading>
  {
    seq(|entries|, i requires 0 <= i < |entries| => (entries[i].0, BooleanParse(ToStringOrNull(entries[i].1))))
  }

  /** The `isConfigured` fold: a reading that is not a boolean throws; a false one is logged and clears the flag. */
  function TallyOf(readings: seq<Reading>): Tally
    decreases |readings|
  {
    if readings == [] then Tally([], Ok(true))
    else
      var previous := TallyOf(readings[..|readings| - 1]);
      var last := readings[|readings| - 1];
      if previous.configured.Err? then previous
      else match last.1
        case Err(e) => Tally(previous.messages, Err(NotABoolean(last.0, e)))
        case Ok(inDesiredState) =>
          if inDesiredState then previous
          else Tally(previous.messages + [NotConfiguredMessage(last.0)], Ok(false))
  }

  /** One more reading, after readings that all parsed: the fold's next step. */
  lemma {:induction false} TallyExtend(readings: seq<Reading>, i: nat)
    requires i < |readings| && TallyOf(readings[..i]).configured.Ok?
    ensures var previous := TallyOf(readings[..i]);
            var next := TallyOf(readings[..i + 1]);
            match readings[i].1
            case Err(e) => next == Tally(previous.messages, Err(NotABoolean(readings[i].0, e)))
            case Ok(inDesiredState) =>
              next == if inDesiredState then previous
                      else Tally(previous.messages + [NotConfiguredMessage(readings[i].0)], Ok(false))
  {
    assert readings[..i + 1][..i] == readings[..i];
  }

  function Testing(env: Environment, t: PSDscScriptConfiguration, scriptPath: string, names: seq<string>, h: Host): Step<bool>
  {
    var s := Submission(env, TestJob(t, scriptPath, names), h);
    if s.result.Err? then s.Abort()
    else match TestResults(s.result.value)
      case Err(e) => Step(s.host, Err(e))
      case Ok(entries) =>
        var tally := TallyOf(Readings(entries));
        Step(s.host.(log := s.host.log + tally.messages), tally.configured)
  }

  /** Testing case by case: the job faulted, its results were not a dictionary, or the tally. */
  lemma {:induction false} TestingCases(env: Environment, t: PSDscScriptConfiguration, scriptPath: string, names: seq<string>, h: Host)
    ensures var s := Submission(env, TestJob(t, scriptPath, names), h);
            s.result.Err? ==> Testing(env, t, scriptPath, names, h) == Step(s.host, Err(s.result.error))
    ensures var s := Submission(env, TestJob(t, scriptPath, names), h);
            s.result.Ok? && TestResults(s.result.value).Err? ==>
              Testing(env, t, scriptPath, names, h) == Step(s.host, Err(TestResults(s.result.value).error))
    ensures var s := Submission(env, TestJob(t, scriptPath, names), h);
            s.result.Ok? && TestResults(s.result.value).Ok? ==>
              var tally := TallyOf(Readings(TestResults(s.result.value).value));
              Testing(env, t, scriptPath, names, h) == Step(s.host.(log := s.host.log + tally.messages), tally.configured)
  {
  }

  /** The start jobs, one after the other; the first that throws ends the run. */
  function Starts(env: Environment, t: PSDscScriptConfiguration, dir: string, names: seq<string>, h: Host): Step<()>
    decreases |names|
  {
    if names == [] then Step(h, Ok(()))
    else
      var s := Submission(env, StartJob(t, Combine(dir, names[0])), h);
      if s.result.Err? then s.Abort() else Starts(env, t, dir, names[1..], s.host)
  }

  // ===========================================================================
  // Configure and collect

  function ConfigDataMessages(configDataPath: NString): seq<LogEntry>
  {
    if IsNullOrWhiteSpace(configDataPath) then []
    else [LogInformation(UsingConfigDataPrefix + configDataPath.value + QuoteSuffix)]
  }

  function InvokingMessages(scriptPath: string, configDataPath: NString): seq<LogEntry>
  {
    [LogInformation(InvokingPrefix + scriptPath + InvokingInfix + scriptPath + InvokingSuffix)]
    + ConfigDataMessages(configDataPath)
  }

  const SimulationMessage: string := "Running simulation, will not configure ...'"

  /** ConfigureAsync, once the script and the data are staged. */
  function Enactment(env: Environment, t: PSDscScriptConfiguration, simulation: bool, scriptPath: string,
                     configDataPath: NString, h: Host): Step<()>
  {
    var announced := h.(log := h.log + InvokingMessages(scriptPath, configDataPath));
    if simulation then Step(announced.(log := announced.log + [LogInformation(SimulationMessage)]), Ok(()))
    else
      var enacting := announced.(log := announced.log + [EnactingMessage(scriptPath)]);
      var found := NameDiscovery(env, t, scriptPath, enacting);
      if found.result.Err? then found.Abort()
      else
        var compiled := Compilation(env, t, scriptPath, found.result.value, configDataPath, found.host);
        if compiled.result.Err? then compiled.Abort()
        else Starts(env, t, GetDirectoryName(scriptPath), found.result.value, compiled.host)
  }

  /** ConfigureAsync */
  function Configuration(env: Environment, template: Option<PSDscScriptConfiguration>, simulation: bool, h: Host): Step<()>
  {
    match template
    case None => Step(h, Err(TemplateNotSet))
    case Some(t) =>
      if !HasScript(t) then Step(h.(log := h.log + [LogError(MissingScriptMessage)]), Ok(()))
      else
        var script := ScriptStaging(env, t, h);
        if script.result.Err? then script.Abort()
        else
          var data := ConfigDataStaging(env, script.result.value, t.DscConfigDataPath, t.DscConfigDataAsset, script.host);
          if data.result.Err? then data.Abort()
          else Enactment(env, t, simulation, script.result.value, data.result.value, data.host)
  }

  /** CollectAsync, once the script and the data are staged. */
  function Inspection(env: Environment, t: PSDscScriptConfiguration, scriptPath: string, configDataPath: NString,
                      h: Host): Step<PSDscScriptConfiguration>
  {
    var announced := h.(log := h.log + [TestingMessage(scriptPath)]
                                    + ConfigDataMessages(configDataPath));
    var found := NameDiscovery(env, t, scriptPath, announced);
    if found.result.Err? then found.Abort()
    else
      var compiled := Compilation(env, t, scriptPath, found.result.value, configDataPath, found.host);
      if compiled.result.Err? then compiled.Abort()
      else
        var remoting := RemotingEnablement(env, t, compiled.host);
        if remoting.result.Err? then remoting.Abort()
        else
          var tested := Testing(env, t, scriptPath, found.result.value, remoting.host);
          if tested.result.Err? then tested.Abort()
          else Step(tested.host, Ok(t.(Configured := tested.result.value)))
  }

  /** CollectAsync */
  function Collection(env: Environment, template: Option<PSDscScriptConfiguration>, h: Host): Step<PSDscScriptConfiguration>
  {
    match template
    case None => Step(h, Err(TemplateNotSet))
    case Some(t) =>
      if !HasScript(t) then Step(h.(log := h.log + [LogError(MissingScriptMessage)]), Ok(DefaultConfiguration))
      else
        var script := ScriptStaging(env, t, h);
        if script.result.Err? then script.Abort()
        else
          var data := ConfigDataStaging(env, script.result.value, t.DscConfigDataPath, t.DscConfigDataAsset, script.host);
          if data.result.Err? then data.Abort()
          else Inspection(env, t, script.result.value, data.result.value, data.host)
  }

  // ===========================================================================
  // The operation

  class EnsureDscOperation {
    const template: Option<PSDscScriptConfiguration>
    const env: Environment
    var files: map<string, string>
    var jobs: seq<Job>
    var log: seq<LogEntry>

    function State(): Host
      reads this
    {
      Host(files, jobs, log)
    }

    constructor (template: Option<PSDscScriptConfiguration>, env: Environment, files: map<string, string>)
      ensures this.template == template && this.env == env
      ensures State() == Host(files, [], [])
    {
      this.template := template;
      this.env := env;
      this.files := files;
      this.jobs := [];
      this.log := [];
    }

    method ValidateConfiguration() returns (r: Result<bool, DscError>)
      modifies this
      ensures Step(State(), r) == Validation(template, old(State()))
    {
      if template.None? {
        return Err(TemplateNotSet);
      }
      r := Ok(true);
      if IsNullOrWhiteSpace(template.value.DscScriptAsset) && IsNullOrWhiteSpace(template.value.DscScriptPath) {
        log := log + [LogError(MissingScriptMessage)];
        r := Ok(false);
      }
    }

    method GetScriptPath() returns (r: Result<string, DscError>)
      requires template.Some? && HasScript(template.value)
      modifies this
      ensures Step(State(), r) == ScriptStaging(env, template.value, old(State()))
    {
      var t := template.value;
      if IsNullOrWhiteSpace(t.DscScriptAsset) {
        return Ok(t.DscScriptPath.value);
      }
      var assetName := AssetName(t.DscScriptAsset.value);
      var scriptContents := env.assets(t.DscScriptAsset.value);
      if scriptContents.None? {
        return Err(AssetNotFound(t.DscScriptAsset.value));
      }
      var hash := Hash(env.sha1, scriptContents.value);
      var tempDir := Combine(Combine(env.tempPath, assetName), hash);
      var scriptPath := Combine(tempDir, GetFileNameWithoutExtension(assetName) + ScriptExtension);
      files := files[scriptPath := scriptContents.value];
      r := Ok(scriptPath);
    }

    method GetConfigDataPath(scriptPath: string, configDataPath: NString, configDataAsset: NString) returns (r: Result<NString, DscError>)
      modifies this
      ensures Step(State(), r) == ConfigDataStaging(env, scriptPath, configDataPath, configDataAsset, old(State()))
    {
      if IsNullOrWhiteSpace(configDataAsset) {
        return Ok(configDataPath);
      }
      var assetName := AssetName(configDataAsset.value);
      var dir := GetDirectoryName(scriptPath);
      var newConfigDataPath := Combine(dir, GetFileNameWithoutExtension(assetName) + ConfigDataExtension);
      var dataContents := env.assets(configDataAsset.value);
      if dataContents.None? {
        return Err(AssetNotFound(configDataAsset.value));
      }
      files := files[newConfigDataPath := dataContents.value];
      r := Ok(Some(newConfigDataPath));
    }

    /** IRemoteJobExecuter.ExecuteJobAsync, with the job's messages forwarded to the log. */
    method ExecuteJob(job: Job) returns (r: Result<map<string, Value>, DscError>)
      modifies this
      ensures Step(State(), r) == Submission(env, job, old(State()))
    {
      var answer := env.remote(jobs, job);
      jobs := jobs + [job];
      log := log + answer.messages;
      if answer.outcome.Faulted? {
        return Err(JobFailed(job.script));
      }
      r := Ok(answer.outcome.outVariables);
    }

    method GetDscConfigurationNamesFromScript(scriptPath: string) returns (r: Result<seq<string>, DscError>)
      requires template.Some?
      modifies this
      ensures Step(State(), r) == NameDiscovery(env, template.value, scriptPath, old(State()))
    {
      var result := ExecuteJob(FindNamesJob(template.value, scriptPath));
      if result.Err? {
        return Err(result.error);
      }
      r := ConfigurationNames(result.value);
    }

    method CompileDscConfigurationsInScript(scriptPath: string, configNames: seq<string>, configDataPath: NString)
      returns (r: Result<(), DscError>)
      requires template.Some?
      modifies this
      ensures Step(State(), r) == Compilation(env, template.value, scriptPath, configNames, configDataPath, old(State()))
    {
      var result := ExecuteJob(CompileJob(template.value, scriptPath, configNames, configDataPath));
      if result.Err? {
        return Err(result.error);
      }
      r := Ok(());
    }

    method EnsurePsRemotingEnabled() returns (r: Result<(), DscError>)
      requires template.Some?
      modifies this
      ensures Step(State(), r) == RemotingEnablement(env, template.value, old(State()))
    {
      var result := ExecuteJob(EnableRemotingJob(template.value));
      if result.Err? {
        return Err(result.error);
      }
      r := Ok(());
    }

    method TestDscConfigurationsInScript(scriptPath: string, configNames: seq<string>) returns (r: Result<bool, DscError>)
      requires template.Some?
      modifies this
      ensures Step(State(), r) == Testing(env, template.value, scriptPath, configNames, old(State()))
    {
      ghost var before := State();
      TestingCases(env, template.value, scriptPath, configNames, before);
      var result := ExecuteJob(TestJob(template.value, scriptPath, configNames));
      if result.Err? {
        return Err(result.error);
      }
      var collectValues := TestResults(result.value);
      if collectValues.Err? {
        return Err(collectValues.error);
      }
      r := FoldTestResults(collectValues.value);
    }

    /** The `isConfigured` loop over the test results, logging each configuration not in the desired state. */
    method FoldTestResults(entries: seq<(string, Value)>) returns (r: Result<bool, DscError>)
      modifies this
      ensures files == old(files) && jobs == old(jobs)
      ensures log == old(log) + TallyOf(Readings(entries)).messages
      ensures r == TallyOf(Readings(entries)).configured
    {
      ghost var readings := Readings(entries);
      var isConfigured := true;
      for i := 0 to |entries|
        invariant files == old(files) && jobs == old(jobs)
        invariant log == old(log) + TallyOf(readings[..i]).messages
        invariant TallyOf(readings[..i]).configured == Ok(isConfigured)
      {
        var item := entries[i];
        var parsed := BooleanParse(ToStringOrNull(item.1));
        assert readings[i] == (item.0, parsed);
        TallyExtend(readings, i);
        if parsed.Err? {
          TallyStopsAtFailure(readings, i + 1);
          return Err(NotABoolean(item.0, parsed.error));
        }
        if !parsed.value {
          log := log + [NotConfiguredMessage(item.0)];
          isConfigured := false;
        }
      }
      assert readings[..|entries|] == readings;
      r := Ok(isConfigured);
    }

    method ConfigureAsync(simulation: bool) returns (r: Result<(), DscError>)
      modifies this
      ensures Step(State(), r) == Configuration(env, template, simulation, old(State()))
    {
      var valid := ValidateConfiguration();
      if valid.Err? {
        return Err(valid.error);
      }
      if !valid.value {
        return Ok(());
      }
      var t := template.value;
      var scriptPath := GetScriptPath();
      if scriptPath.Err? {
        return Err(scriptPath.error);
      }
      var configDataPath := GetConfigDataPath(scriptPath.value, t.DscConfigDataPath, t.DscConfigDataAsset);
      if configDataPath.Err? {
        return Err(configDataPath.error);
      }
      r := Enact(simulation, scriptPath.value, configDataPath.value);
    }

    /** The part of ConfigureAsync after staging: the simulation exit, then the jobs. */
    method Enact(simulation: bool, scriptPath: string, configDataPath: NString) returns (r: Result<(), DscError>)
      requires template.Some?
      modifies this
      ensures Step(State(), r) == Enactment(env, template.value, simulation, scriptPath, configDataPath, old(State()))
    {
      var t := template.value;
      log := log + InvokingMessages(scriptPath, configDataPath);
      if simulation {
        log := log + [LogInformation(SimulationMessage)];
        return Ok(());
      }
      log := log + [EnactingMessage(scriptPath)];
      var configNames := GetDscConfigurationNamesFromScript(scriptPath);
      if configNames.Err? {
        return Err(configNames.error);
      }
      var names := configNames.value;
      var compiled := CompileDscConfigurationsInScript(scriptPath, names, configDataPath);
      if compiled.Err? {
        return Err(compiled.error);
      }
      var dir := GetDirectoryName(scriptPath);
      ghost var before := State();
      for i := 0 to |names|
        invariant Starts(env, t, dir, names, before) == Starts(env, t, dir, names[i..], State())
      {
        assert names[i..][1..] == names[i + 1..];
        var configDir := Combine(dir, names[i]);
        var started := ExecuteJob(StartJob(t, configDir));
        if started.Err? {
          return Err(started.error);
        }
      }
      r := Ok(());
    }

    method CollectAsync() returns (r: Result<PSDscScriptConfiguration, DscError>)
      modifies this
      ensures Step(State(), r) == Collection(env, template, old(State()))
    {
      var valid := ValidateConfiguration();
      if valid.Err? {
        return Err(valid.error);
      }
      if !valid.value {
        return Ok(DefaultConfiguration);
      }
      var t := template.value;
      var scriptPath := GetScriptPath();
      if scriptPath.Err? {
        return Err(scriptPath.error);
      }
      var configDataPath := GetConfigDataPath(scriptPath.value, t.DscConfigDataPath, t.DscConfigDataAsset);
      if configDataPath.Err? {
        return Err(configDataPath.error);
      }
      r := Inspect(scriptPath.value, configDataPath.value);
    }

    /** The part of CollectAsync after staging: find, compile, enable remoting, test. */
    method Inspect(scriptPath: string, configDataPath: NString) returns (r: Result<PSDscScriptConfiguration, DscError>)
      requires template.Some?
      modifies this
      ensures Step(State(), r) == Inspection(env, template.value, scriptPath, configDataPath, old(State()))
    {
      var t := template.value;
      log := log + [TestingMessage(scriptPath)] + ConfigDataMessages(configDataPath);
      var configNames := GetDscConfigurationNamesFromScript(scriptPath);
      if configNames.Err? {
        return Err(configNames.error);
      }
      var compiled := CompileDscConfigurationsInScript(scriptPath, configNames.value, configDataPath);
      if compiled.Err? {
        return Err(compiled.error);
      }
      var remoting := EnsurePsRemotingEnabled();
      if remoting.Err? {
        return Err(remoting.error);
      }
      var configured := TestDscConfigurationsInScript(scriptPath, configNames.value);
      if configured.Err? {
        return Err(configured.error);
      }
      r := Ok(t.(Configured := configured.value));
    }
  }

  // ===========================================================================
  // Properties

  /** Once the fold has thrown, later entries change nothing. */
  lemma {:induction false} TallyStopsAtFailure(readings: seq<Reading>, j: nat)
    requires j <= |readings| && TallyOf(readings[..j]).configured.Err?
    ensures TallyOf(readings) == TallyOf(readings[..j])
    decreases |readings|
  {
    if j < |readings| {
      var front := readings[..|readings| - 1];
      assert front[..j] == readings[..j];
      TallyStopsAtFailure(front, j);
    } else {
      assert readings[..j] == readings;
    }
  }

  // --- the test fold

  predicate AllReadable(readings: seq<Reading>)
  {
    forall i :: 0 <= i < |readings| ==> readings[i].1.Ok?
  }

  /** Every configuration reported itself in the desired state. */
  predicate AllInDesiredState(readings: seq<Reading>)
  {
    forall i :: 0 <= i < |readings| ==> readings[i].1 == Ok(true)
  }

  /** The configurations that reported themselves not in the desired state, in order. */
  function Unsatisfied(readings: seq<Reading>): seq<string>
    decreases |readings|
  {
    if readings == [] then []
    else (if readings[0].1 == Ok(false) then [readings[0].0] else []) + Unsatisfied(readings[1..])
  }

  function NotConfiguredMessages(names: seq<string>): seq<LogEntry>
  {
    seq(|names|, i requires 0 <= i < |names| => NotConfiguredMessage(names[i]))
  }

  lemma {:induction false} UnsatisfiedAppend(readings: seq<Reading>, last: Reading)
    ensures Unsatisfied(readings + [last]) == Unsatisfied(readings) + Unsatisfied([last])
    decreases |readings|
  {
    if readings == [] {
      assert readings + [last] == [last];
    } else {
      assert (readings + [last])[1..] == readings[1..] + [last];
      UnsatisfiedAppend(readings[1..], last);
    }
  }

  /**
   * The fold succeeds exactly when every value parses as a boolean; it then says
   * whether all of them are true and has logged, in order, one message per
   * configuration that is not.
   */
  lemma {:induction false} TallyMeaning(readings: seq<Reading>)
    ensures TallyOf(readings).configured.Ok? <==> AllReadable(readings)
    ensures AllReadable(readings) ==>
              TallyOf(readings) == Tally(NotConfiguredMessages(Unsatisfied(readings)), Ok(AllInDesiredState(readings)))
    decreases |readings|
  {
    if readings != [] {
      var front := readings[..|readings| - 1];
      var last := readings[|readings| - 1];
      assert readings == front + [last];
      TallyMeaning(front);
      UnsatisfiedAppend(front, last);
      assert AllReadable(readings) <==> AllReadable(front) && last.1.Ok?;
      if AllReadable(readings) {
        assert AllInDesiredState(readings) <==> AllInDesiredState(front) && last.1 == Ok(true);
        var names := Unsatisfied(front);
        if last.1 == Ok(false) {
          assert Unsatisfied([last]) == [last.0];
          assert NotConfiguredMessages(names + [last.0]) == NotConfiguredMessages(names) + [NotConfiguredMessage(last.0)];
        } else {
          assert Unsatisfied([last]) == [];
          assert names + [] == names;
        }
      }
    }
  }

  /** The first value that does not parse is the one the exception names. */
  lemma {:induction false} FirstUnreadableThrows(readings: seq<Reading>, k: nat)
    requires k < |readings| && AllReadable(readings[..k]) && readings[k].1.Err?
    ensures TallyOf(readings).configured == Err(NotABoolean(readings[k].0, readings[k].1.error))
  {
    ReadableTallyOk(readings[..k]);
    TallyFailsAt(readings, k);
    TallyStopsAtFailure(readings, k + 1);
  }

  lemma {:induction false} ReadableTallyOk(readings: seq<Reading>)
    requires AllReadable(readings)
    ensures TallyOf(readings).configured.Ok?
  {
    TallyMeaning(readings);
  }

  lemma {:induction false} TallyFailsAt(readings: seq<Reading>, k: nat)
    requires k < |readings| && TallyOf(readings[..k]).configured.Ok? && readings[k].1.Err?
    ensures TallyOf(readings[..k + 1]).configured == Err(NotABoolean(readings[k].0, readings[k].1.error))
  {
    TallyExtend(readings, k);
  }

  /** TestDscConfigurationsInScript: one test job; the answer is read as the fold says. */
  lemma {:induction false} TestingMeaning(env: Environment, t: PSDscScriptConfiguration, scriptPath: string, names: seq<string>, h: Host)
    ensures var r := Testing(env, t, scriptPath, names, h);
            r.host.files == h.files && r.host.jobs == h.jobs + [TestJob(t, scriptPath, names)]
    ensures var r := Testing(env, t, scriptPath, names, h);
            var answer := env.remote(h.jobs, TestJob(t, scriptPath, names));
            r.result.Ok? <==> answer.outcome.Completed? && TestResults(answer.outcome.outVariables).Ok?
                              && AllReadable(Readings(TestResults(answer.outcome.outVariables).value))
    ensures var r := Testing(env, t, scriptPath, names, h);
            var answer := env.remote(h.jobs, TestJob(t, scriptPath, names));
            r.result.Ok? ==>
              var readings := Readings(TestResults(answer.outcome.outVariables).value);
              r.result.value == AllInDesiredState(readings)
              && r.host.log == h.log + answer.messages + NotConfiguredMessages(Unsatisfied(readings))
  {
    var answer := env.remote(h.jobs, TestJob(t, scriptPath, names));
    if answer.outcome.Completed? && TestResults(answer.outcome.outVariables).Ok? {
      TallyMeaning(Readings(TestResults(answer.outcome.outVariables).value));
    }
  }

  // --- the start jobs

  lemma {:induction false} StartJobsCons(t: PSDscScriptConfiguration, dir: string, names: seq<string>)
    requires names != []
    ensures StartJobs(t, dir, names) == [StartJob(t, Combine(dir, names[0]))] + StartJobs(t, dir, names[1..])
  {
  }

  /**
   * The start jobs go out in the order of the names, each after all those before it
   * completed: the run succeeds exactly when every one of them completes, and
   * otherwise stops right after the first that faults.
   */
  lemma {:induction false} StartsTrace(env: Environment, t: PSDscScriptConfiguration, dir: string, names: seq<string>, h: Host)
    ensures Starts(env, t, dir, names, h).host.files == h.files
    ensures var s := Starts(env, t, dir, names, h);
            s.result.Ok? ==> s.host.jobs == h.jobs + StartJobs(t, dir, names)
    ensures Starts(env, t, dir, names, h).result.Ok? <==>
            forall k :: 0 <= k < |names| ==>
              env.remote(h.jobs + StartJobs(t, dir, names)[..k], StartJob(t, Combine(dir, names[k]))).outcome.Completed?
    ensures var s := Starts(env, t, dir, names, h);
            s.result.Err? ==>
              exists k :: 0 <= k < |names|
                && (forall j :: 0 <= j < k ==>
                      env.remote(h.jobs + StartJobs(t, dir, names)[..j], StartJob(t, Combine(dir, names[j]))).outcome.Completed?)
                && env.remote(h.jobs + StartJobs(t, dir, names)[..k], StartJob(t, Combine(dir, names[k]))).outcome.Faulted?
                && s.host.jobs == h.jobs + StartJobs(t, dir, names)[..k + 1]
  {
    StartsRecordPlan(env, t, dir, names, h);
    StartsSucceed(env, t, dir, names, h);
    StartsStopAtFault(env, t, dir, names, h);
  }

  lemma {:induction false} StartsRecordPlan(env: Environment, t: PSDscScriptConfiguration, dir: string, names: seq<string>, h: Host)
    ensures Starts(env, t, dir, names, h).host.files == h.files
    ensures var s := Starts(env, t, dir, names, h);
            s.result.Ok? ==> s.host.jobs == h.jobs + StartJobs(t, dir, names)
    decreases |names|
  {
    if names != [] {
      var job := StartJob(t, Combine(dir, names[0]));
      var answer := env.remote(h.jobs, job);
      var next := h.(jobs := h.jobs + [job], log := h.log + answer.messages);
      if answer.outcome.Completed? {
        StartsRecordPlan(env, t, dir, names[1..], next);
        StartJobsCons(t, dir, names);
        assert h.jobs + StartJobs(t, dir, names) == next.jobs + StartJobs(t, dir, names[1..]);
      }
    }
  }

  /** After a first start job that completed, the k-th job goes out after the first k of the rest. */
  lemma {:induction false} StartsShift(t: PSDscScriptConfiguration, dir: string, names: seq<string>, jobs: seq<Job>, k: nat)
    requires 1 <= k <= |names|
    ensures var job := StartJob(t, Combine(dir, names[0]));
            jobs + StartJobs(t, dir, names)[..k] == (jobs + [job]) + StartJobs(t, dir, names[1..])[..k - 1]
  {
    StartJobsCons(t, dir, names);
    var job := StartJob(t, Combine(dir, names[0]));
    assert StartJobs(t, dir, names)[..k] == [job] + StartJobs(t, dir, names[1..])[..k - 1];
  }

  lemma {:induction false} StartsSucceed(env: Environment, t: PSDscScriptConfiguration, dir: string, names: seq<string>, h: Host)
    ensures Starts(env, t, dir, names, h).result.Ok? <==>
            forall k :: 0 <= k < |names| ==>
              env.remote(h.jobs + StartJobs(t, dir, names)[..k], StartJob(t, Combine(dir, names[k]))).outcome.Completed?
    decreases |names|
  {
    if names != [] {
      var job := StartJob(t, Combine(dir, names[0]));
      var answer := env.remote(h.jobs, job);
      var next := h.(jobs := h.jobs + [job], log := h.log + answer.messages);
      assert h.jobs + StartJobs(t, dir, names)[..0] == h.jobs;
      if answer.outcome.Completed? {
        StartsSucceed(env, t, dir, names[1..], next);
        assert Starts(env, t, dir, names, h) == Starts(env, t, dir, names[1..], next);
        forall k | 1 <= k < |names|
          ensures h.jobs + StartJobs(t, dir, names)[..k] == next.jobs + StartJobs(t, dir, names[1..])[..k - 1]
          ensures names[k] == names[1..][k - 1]
        {
          StartsShift(t, dir, names, h.jobs, k);
        }
      }
    }
  }

  lemma {:induction false} StartsStopAtFault(env: Environment, t: PSDscScriptConfiguration, dir: string, names: seq<string>, h: Host)
    ensures var s := Starts(env, t, dir, names, h);
            s.result.Err? ==>
              exists k :: 0 <= k < |names|
                && (forall j :: 0 <= j < k ==>
                      env.remote(h.jobs + StartJobs(t, dir, names)[..j], StartJob(t, Combine(dir, names[j]))).outcome.Completed?)
                && env.remote(h.jobs + StartJobs(t, dir, names)[..k], StartJob(t, Combine(dir, names[k]))).outcome.Faulted?
                && s.host.jobs == h.jobs + StartJobs(t, dir, names)[..k + 1]
    decreases |names|
  {
    if names != [] {
      var job := StartJob(t, Combine(dir, names[0]));
      var answer := env.remote(h.jobs, job);
      var next := h.(jobs := h.jobs + [job], log := h.log + answer.messages);
      var s := Starts(env, t, dir, names, h);
      StartsShift(t, dir, names, h.jobs, 1);
      assert h.jobs + StartJobs(t, dir, names)[..0] == h.jobs;
      if answer.outcome.Completed? && s.result.Err? {
        StartsStopAtFault(env, t, dir, names[1..], next);
        assert s == Starts(env, t, dir, names[1..], next);
        var rest := StartJobs(t, dir, names[1..]);
        var k' :| 0 <= k' < |names[1..]|
          && (forall j :: 0 <= j < k' ==>
                env.remote(next.jobs + rest[..j], StartJob(t, Combine(dir, names[1..][j]))).outcome.Completed?)
          && env.remote(next.jobs + rest[..k'], StartJob(t, Combine(dir, names[1..][k']))).outcome.Faulted?
          && s.host.jobs == next.jobs + rest[..k' + 1];
        var k := k' + 1;
        StartsShift(t, dir, names, h.jobs, k);
        StartsShift(t, dir, names, h.jobs, k + 1);
        assert names[k] == names[1..][k'];
        forall j | 0 <= j < k
          ensures env.remote(h.jobs + StartJobs(t, dir, names)[..j], StartJob(t, Combine(dir, names[j]))).outcome.Completed?
        {
          if j > 0 {
            StartsShift(t, dir, names, h.jobs, j);
            assert names[j] == names[1..][j - 1];
          }
        }
        assert 0 <= k < |names|
          && env.remote(h.jobs + StartJobs(t, dir, names)[..k], StartJob(t, Combine(dir, names[k]))).outcome.Faulted?
          && s.host.jobs == h.jobs + StartJobs(t, dir, names)[..k + 1];
      }
    }
  }


  // --- configure

  /** The jobs a successful configure run submits: discover, compile, then one start per configuration. */
  function ConfigurePlan(t: PSDscScriptConfiguration, scriptPath: string, configDataPath: NString, names: seq<string>): seq<Job>
  {
    [FindNamesJob(t, scriptPath), CompileJob(t, scriptPath, names, configDataPath)]
    + StartJobs(t, GetDirectoryName(scriptPath), names)
  }

  /**
   * Submitting appends its one job to the record and writes no file; the answer
   * depends on the jobs submitted before, not on what was logged.
   */
  lemma {:induction false} SubmissionRecords(env: Environment, job: Job, h: Host, h': Host)
    requires h'.jobs == h.jobs
    ensures Submission(env, job, h).host.files == h.files
    ensures Submission(env, job, h).host.jobs == h.jobs + [job]
    ensures Submission(env, job, h).result == Submission(env, job, h').result
  {
  }

  /** The start jobs submitted are a prefix of the list of start jobs, all of it when they succeed. */
  lemma {:induction false} StartsWithinPlan(env: Environment, t: PSDscScriptConfiguration, dir: string, names: seq<string>, h: Host)
    ensures Starts(env, t, dir, names, h).host.files == h.files
    ensures h.jobs <= Starts(env, t, dir, names, h).host.jobs <= h.jobs + StartJobs(t, dir, names)
    ensures Starts(env, t, dir, names, h).result.Ok? ==> Starts(env, t, dir, names, h).host.jobs == h.jobs + StartJobs(t, dir, names)
  {
    StartsRecordPlan(env, t, dir, names, h);
    StartsStopAtFault(env, t, dir, names, h);
    var s := Starts(env, t, dir, names, h);
    var all := StartJobs(t, dir, names);
    if s.result.Err? {
      var k :| 0 <= k < |names|
        && env.remote(h.jobs + all[..k], StartJob(t, Combine(dir, names[k]))).outcome.Faulted?
        && s.host.jobs == h.jobs + all[..k + 1];
      assert s.host.jobs == (h.jobs + all)[..|h.jobs| + k + 1];
    }
  }

  /**
   * Enacting submits a prefix of the plan for the names the script declares, the
   * whole plan when it succeeds, and writes no file. A faulting discovery or
   * compile job is the last job submitted.
   */
  lemma {:induction false} EnactmentFollowsPlan(env: Environment, t: PSDscScriptConfiguration, scriptPath: string, configDataPath: NString, h: Host)
    ensures Enactment(env, t, false, scriptPath, configDataPath, h).host.files == h.files
    ensures var e := Enactment(env, t, false, scriptPath, configDataPath, h);
            var found := NameDiscovery(env, t, scriptPath, h).result;
            found.Err? ==> e.result.Err? && e.host.jobs == h.jobs + [FindNamesJob(t, scriptPath)]
    ensures var e := Enactment(env, t, false, scriptPath, configDataPath, h);
            var found := NameDiscovery(env, t, scriptPath, h).result;
            found.Ok? ==>
              var plan := h.jobs + ConfigurePlan(t, scriptPath, configDataPath, found.value);
              plan[..|h.jobs| + 2] <= e.host.jobs <= plan
              && (e.result.Ok? ==> e.host.jobs == plan)
    ensures var e := Enactment(env, t, false, scriptPath, configDataPath, h);
            var found := NameDiscovery(env, t, scriptPath, h).result;
            found.Ok? ==>
              var compile := CompileJob(t, scriptPath, found.value, configDataPath);
              env.remote(h.jobs + [FindNamesJob(t, scriptPath)], compile).outcome.Faulted? ==>
                e.result.Err? && e.host.jobs == h.jobs + [FindNamesJob(t, scriptPath), compile]
  {
    var announced := h.(log := h.log + InvokingMessages(scriptPath, configDataPath));
    var enacting := announced.(log := announced.log + [EnactingMessage(scriptPath)]);
    SubmissionRecords(env, FindNamesJob(t, scriptPath), enacting, h);
    var found := NameDiscovery(env, t, scriptPath, enacting);
    var e := Enactment(env, t, false, scriptPath, configDataPath, h);
    assert found.result == NameDiscovery(env, t, scriptPath, h).result;
    if found.result.Err? {
      assert e == found.Abort();
    } else {
      var names := found.result.value;
      var compiled := Compilation(env, t, scriptPath, names, configDataPath, found.host);
      assert e == if compiled.result.Err? then compiled.Abort()
                  else Starts(env, t, GetDirectoryName(scriptPath), names, compiled.host);
      CompileThenStart(env, t, scriptPath, configDataPath, names, h.jobs, found.host);
    }
  }

  /** After discovery: the compile job, then the start jobs within the plan. */
  lemma {:induction false} CompileThenStart(env: Environment, t: PSDscScriptConfiguration, scriptPath: string,
                                            configDataPath: NString, names: seq<string>, before: seq<Job>, h: Host)
    requires h.jobs == before + [FindNamesJob(t, scriptPath)]
    ensures var compiled := Compilation(env, t, scriptPath, names, configDataPath, h);
            var e := if compiled.result.Err? then compiled.Abort()
                     else Starts(env, t, GetDirectoryName(scriptPath), names, compiled.host);
            var plan := before + ConfigurePlan(t, scriptPath, configDataPath, names);
            e.host.files == h.files
            && plan[..|before| + 2] <= e.host.jobs <= plan
            && (e.result.Ok? ==> e.host.jobs == plan)
    ensures var compiled := Compilation(env, t, scriptPath, names, configDataPath, h);
            var e := if compiled.result.Err? then compiled.Abort()
                     else Starts(env, t, GetDirectoryName(scriptPath), names, compiled.host);
            var compile := CompileJob(t, scriptPath, names, configDataPath);
            env.remote(h.jobs, compile).outcome.Faulted? ==>
              e.result.Err? && e.host.jobs == h.jobs + [compile]
  {
    SubmissionRecords(env, CompileJob(t, scriptPath, names, configDataPath), h, h);
    var compiled := Compilation(env, t, scriptPath, names, configDataPath, h);
    var dir := GetDirectoryName(scriptPath);
    var head := before + [FindNamesJob(t, scriptPath), CompileJob(t, scriptPath, names, configDataPath)];
    assert compiled.host.jobs == head && compiled.host.files == h.files;
    var plan := before + ConfigurePlan(t, scriptPath, configDataPath, names);
    assert plan == head + StartJobs(t, dir, names);
    assert plan[..|before| + 2] == head;
    if compiled.result.Ok? {
      StartsWithinPlan(env, t, dir, names, compiled.host);
    }
  }


  /** A simulation stages the same files as a real run and submits no job. */
  lemma {:induction false} SimulationSubmitsNoJob(env: Environment, template: Option<PSDscScriptConfiguration>, h: Host)
    ensures Configuration(env, template, true, h).host.jobs == h.jobs
    ensures Configuration(env, template, true, h).host.files == Configuration(env, template, false, h).host.files
  {
    if template.Some? && HasScript(template.value) {
      var t := template.value;
      var script := ScriptStaging(env, t, h);
      if script.result.Ok? {
        var data := ConfigDataStaging(env, script.result.value, t.DscConfigDataPath, t.DscConfigDataAsset, script.host);
        if data.result.Ok? {
          assert Configuration(env, template, true, h) == Enactment(env, t, true, script.result.value, data.result.value, data.host);
          assert Configuration(env, template, false, h) == Enactment(env, t, false, script.result.value, data.result.value, data.host);
          EnactmentFollowsPlan(env, t, script.result.value, data.result.value, data.host);
        }
      }
    }
  }

  /**
   * A null template throws; otherwise validation passes exactly when a script is
   * named, and a failure logs one error and changes nothing else.
   */
  lemma {:induction false} ValidationMeaning(template: Option<PSDscScriptConfiguration>, h: Host)
    ensures template.None? ==> Validation(template, h) == Step(h, Err(TemplateNotSet))
    ensures template.Some? ==> Validation(template, h).result == Ok(HasScript(template.value))
    ensures template.Some? ==>
              Validation(template, h).host
              == if HasScript(template.value) then h else h.(log := h.log + [LogError(MissingScriptMessage)])
  {
  }

  /** Without a script the run only logs the error: nothing is staged or submitted, and collect reports the default. */
  lemma {:induction false} MissingScriptDoesNothing(env: Environment, t: PSDscScriptConfiguration, simulation: bool, h: Host)
    requires IsNullOrWhiteSpace(t.DscScriptAsset) && IsNullOrWhiteSpace(t.DscScriptPath)
    ensures Configuration(env, Some(t), simulation, h) == Step(h.(log := h.log + [LogError(MissingScriptMessage)]), Ok(()))
    ensures Collection(env, Some(t), h) == Step(h.(log := h.log + [LogError(MissingScriptMessage)]), Ok(DefaultConfiguration))
    ensures DefaultConfiguration.Configured
  {
  }

  // --- collect

  /** Collecting submits discover, compile, enable-remoting and test, in that order, and writes no file. */
  lemma {:induction false} InspectionJobs(env: Environment, t: PSDscScriptConfiguration, scriptPath: string, configDataPath: NString, h: Host)
    ensures Inspection(env, t, scriptPath, configDataPath, h).host.files == h.files
    ensures var c := Inspection(env, t, scriptPath, configDataPath, h);
            c.result.Ok? ==> NameDiscovery(env, t, scriptPath, h).result.Ok?
    ensures var c := Inspection(env, t, scriptPath, configDataPath, h);
            c.result.Ok? && NameDiscovery(env, t, scriptPath, h).result.Ok? ==>
              var names := NameDiscovery(env, t, scriptPath, h).result.value;
              c.host.jobs == h.jobs + [FindNamesJob(t, scriptPath), CompileJob(t, scriptPath, names, configDataPath),
                                          EnableRemotingJob(t), TestJob(t, scriptPath, names)]
    ensures var c := Inspection(env, t, scriptPath, configDataPath, h);
            NameDiscovery(env, t, scriptPath, h).result.Err? ==>
              c.result.Err? && c.host.jobs == h.jobs + [FindNamesJob(t, scriptPath)]
    ensures var c := Inspection(env, t, scriptPath, configDataPath, h);
            var found := NameDiscovery(env, t, scriptPath, h).result;
            var discover := FindNamesJob(t, scriptPath);
            found.Ok? ==>
              var compile := CompileJob(t, scriptPath, found.value, configDataPath);
              env.remote(h.jobs + [discover], compile).outcome.Faulted? ==>
                c.result.Err? && c.host.jobs == h.jobs + [discover, compile]
    ensures var c := Inspection(env, t, scriptPath, configDataPath, h);
            var found := NameDiscovery(env, t, scriptPath, h).result;
            var discover := FindNamesJob(t, scriptPath);
            found.Ok? ==>
              var compile := CompileJob(t, scriptPath, found.value, configDataPath);
              env.remote(h.jobs + [discover], compile).outcome.Completed?
              && env.remote(h.jobs + [discover, compile], EnableRemotingJob(t)).outcome.Faulted? ==>
                c.result.Err? && c.host.jobs == h.jobs + [discover, compile, EnableRemotingJob(t)]
  {
    var announced := h.(log := h.log + [TestingMessage(scriptPath)]
                                    + ConfigDataMessages(configDataPath));
    SubmissionRecords(env, FindNamesJob(t, scriptPath), announced, h);
    var found := NameDiscovery(env, t, scriptPath, announced);
    if found.result.Ok? {
      var names := found.result.value;
      SubmissionRecords(env, CompileJob(t, scriptPath, names, configDataPath), found.host, found.host);
      var compiled := Compilation(env, t, scriptPath, names, configDataPath, found.host);
      if compiled.result.Ok? {
        assert compiled.host.jobs == h.jobs + [FindNamesJob(t, scriptPath), CompileJob(t, scriptPath, names, configDataPath)];
        SubmissionRecords(env, EnableRemotingJob(t), compiled.host, compiled.host);
        var remoting := RemotingEnablement(env, t, compiled.host);
        if remoting.result.Ok? {
          TestingMeaning(env, t, scriptPath, names, remoting.host);
          assert h.jobs + [FindNamesJob(t, scriptPath)] + [CompileJob(t, scriptPath, names, configDataPath)]
                 + [EnableRemotingJob(t)] + [TestJob(t, scriptPath, names)]
              == h.jobs + [FindNamesJob(t, scriptPath), CompileJob(t, scriptPath, names, configDataPath),
                           EnableRemotingJob(t), TestJob(t, scriptPath, names)];
        }
      }
    }
  }

  /**
   * A successful collect returns the template with Configured set to whether every
   * configuration reported the desired state to the test job.
   */
  lemma {:induction false} InspectionConfigured(env: Environment, t: PSDscScriptConfiguration, scriptPath: string, configDataPath: NString, h: Host)
    ensures var c := Inspection(env, t, scriptPath, configDataPath, h);
            c.result.Ok? ==>
              var names := NameDiscovery(env, t, scriptPath, h).result.value;
              var jobs := h.jobs + [FindNamesJob(t, scriptPath), CompileJob(t, scriptPath, names, configDataPath), EnableRemotingJob(t)];
              var answer := env.remote(jobs, TestJob(t, scriptPath, names));
              NameDiscovery(env, t, scriptPath, h).result.Ok?
              && answer.outcome.Completed?
              && TestResults(answer.outcome.outVariables).Ok?
              && c.result.value == t.(Configured := AllInDesiredState(Readings(TestResults(answer.outcome.outVariables).value)))
  {
    var announced := h.(log := h.log + [TestingMessage(scriptPath)]
                                    + ConfigDataMessages(configDataPath));
    SubmissionRecords(env, FindNamesJob(t, scriptPath), announced, h);
    var found := NameDiscovery(env, t, scriptPath, announced);
    if found.result.Ok? {
      var names := found.result.value;
      SubmissionRecords(env, CompileJob(t, scriptPath, names, configDataPath), found.host, found.host);
      var compiled := Compilation(env, t, scriptPath, names, configDataPath, found.host);
      if compiled.result.Ok? {
        assert compiled.host.jobs == h.jobs + [FindNamesJob(t, scriptPath), CompileJob(t, scriptPath, names, configDataPath)];
        SubmissionRecords(env, EnableRemotingJob(t), compiled.host, compiled.host);
        var remoting := RemotingEnablement(env, t, compiled.host);
        if remoting.result.Ok? {
          assert h.jobs + [FindNamesJob(t, scriptPath)] + [CompileJob(t, scriptPath, names, configDataPath)] + [EnableRemotingJob(t)]
              == h.jobs + [FindNamesJob(t, scriptPath), CompileJob(t, scriptPath, names, configDataPath), EnableRemotingJob(t)];
          TestingMeaning(env, t, scriptPath, names, remoting.host);
        }
      }
    }
  }

  // --- staging

  /** "raft::name" names the asset "name" of that raft; a reference without AssetSeparator is the name itself. */
  lemma {:induction false} AssetNameOfReference(raft: string, name: string)
    requires forall i :: 0 <= i < |raft| ==> raft[i] != ':'
    ensures AssetName(raft + AssetSeparator + name) == name
  {
    var s := raft + AssetSeparator + name;
    assert OccursAt(s, AssetSeparator, |raft|);
    forall j | j < |raft|
      ensures !OccursAt(s, AssetSeparator, j)
    {
      if 0 <= j {
        assert s[j] == raft[j];
      }
    }
    SplitInTwoLastAfterFirst(s, AssetSeparator, |raft|);
    assert s[..|raft|] == raft;
    var rest := AssetName(s);
    assert s[|raft| + 2..] == rest;
    assert s[|raft| + 2..] == name;
  }

  lemma {:induction false} AssetNameOfPlainName(name: string)
    requires forall j :: !OccursAt(name, AssetSeparator, j)
    ensures AssetName(name) == name
  {
    SplitInTwoLastWithout(name, AssetSeparator);
  }

  lemma {:induction false} HexHasNoNameBoundary(digest: seq<Byte>)
    ensures HasNoNameBoundary(HexOf(digest))
  {
    HexOfShape(digest);
  }

  lemma {:induction false} WithExtensionHasNoNameBoundary(base: string, extension: string)
    requires HasNoNameBoundary(base) && HasNoNameBoundary(extension)
    ensures HasNoNameBoundary(base + extension)
  {
    var s := base + extension;
    forall i | 0 <= i < |s| ensures !IsNameBoundary(s[i]) {
      if i >= |base| { assert s[i] == extension[i - |base|]; }
    }
  }

  /** A staged script sits in temp/assetName/HASH and is named after the asset, with extension .ps1. */
  lemma {:induction false} ScriptStagingLayout(env: Environment, reference: string, contents: string)
    ensures GetDirectoryName(ScriptStagingPath(env, reference, contents)) == ScriptStagingDirectory(env, reference, contents)
    ensures GetFileName(ScriptStagingPath(env, reference, contents)) == GetFileNameWithoutExtension(AssetName(reference)) + ScriptExtension
    ensures GetDirectoryName(ScriptStagingDirectory(env, reference, contents)) == Combine(env.tempPath, AssetName(reference))
    ensures GetFileName(ScriptStagingDirectory(env, reference, contents)) == HexOf(env.sha1(contents))
  {
    var file := GetFileNameWithoutExtension(AssetName(reference)) + ScriptExtension;
    WithExtensionHasNoNameBoundary(GetFileNameWithoutExtension(AssetName(reference)), ScriptExtension);
    DirectoryOfCombine(ScriptStagingDirectory(env, reference, contents), file);
    FileNameOfCombine(ScriptStagingDirectory(env, reference, contents), file);
    HexHasNoNameBoundary(env.sha1(contents));
    DirectoryOfCombine(Combine(env.tempPath, AssetName(reference)), HexOf(env.sha1(contents)));
    FileNameOfCombine(Combine(env.tempPath, AssetName(reference)), HexOf(env.sha1(contents)));
  }

  /** Two versions of the same asset share a staging path exactly when their digests agree. */
  lemma {:induction false} ScriptStagingIsContentAddressed(env: Environment, r1: string, c1: string, r2: string, c2: string)
    requires AssetName(r1) == AssetName(r2)
    ensures ScriptStagingPath(env, r1, c1) == ScriptStagingPath(env, r2, c2) <==> env.sha1(c1) == env.sha1(c2)
  {
    if ScriptStagingPath(env, r1, c1) == ScriptStagingPath(env, r2, c2) {
      ScriptStagingLayout(env, r1, c1);
      ScriptStagingLayout(env, r2, c2);
      HexOfInjective(env.sha1(c1), env.sha1(c2));
    }
  }

  /** The configuration data is staged in the script's directory, named after its asset, with extension .psd1. */
  lemma {:induction false} ConfigDataBesideScript(scriptPath: string, reference: string)
    ensures GetDirectoryName(ConfigDataStagingPath(scriptPath, reference)) == GetDirectoryName(scriptPath)
    ensures GetFileName(ConfigDataStagingPath(scriptPath, reference)) == GetFileNameWithoutExtension(AssetName(reference)) + ConfigDataExtension
  {
    var file := GetFileNameWithoutExtension(AssetName(reference)) + ConfigDataExtension;
    WithExtensionHasNoNameBoundary(GetFileNameWithoutExtension(AssetName(reference)), ConfigDataExtension);
    DirectoryOfCombine(GetDirectoryName(scriptPath), file);
    FileNameOfCombine(GetDirectoryName(scriptPath), file);
  }

  /** Staging again from the same asset store returns the same path and leaves the files as they were. */
  lemma {:induction false} StagingIsRepeatable(env: Environment, t: PSDscScriptConfiguration, h: Host)
    requires HasScript(t)
    ensures var once := ScriptStaging(env, t, h);
            ScriptStaging(env, t, once.host) == once
  {
  }
}
