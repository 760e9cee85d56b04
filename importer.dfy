/**
 * `DocumentsImporter.ImportFrom`: check and normalise the import folder, start one agent per
 * first-level subfolder (or one for the folder itself when it has none), let each agent plan the
 * upload of every file under its subfolder, and add up the files the agents found. The file
 * system, the client factory and the random draws are the parameters of an `Environment`; every
 * exception that reaches `ImportFrom` becomes an `ImportError` and the exit code -1.
 */
module Importer {
  import opened Wrappers
  import opened Text
  import opened Settings
  import opened Schedule
  import Repository

  // ---------------------------------------------------------------------------------------------
  // The import folder

  /** `ReplaceSpecialSymbols`: `null` stays `null`; otherwise drop every `'` and `"` and trim white space. */
  function ReplaceSpecialSymbols(path: Option<string>): Option<string> {
    match path
    case None => None
    case Some(p) => Some(Trim(RemoveAll(RemoveAll(p, '\''), '"')))
  }

  /** `string.IsNullOrWhiteSpace`. */
  predicate IsNullOrWhiteSpace(s: Option<string>) {
    s.None? || forall i :: 0 <= i < |s.value| ==> IsWhiteSpace(s.value[i])
  }

  /** What the importer asks of the world outside: the file system, the client factory and the random draws. */
  datatype Environment = Environment(
    directoryExists: string -> bool,                // Directory.Exists
    fullPath: string -> string,                     // Path.GetFullPath of an existing directory
    subdirectories: string -> Option<seq<string>>,  // Directory.GetDirectories; None: it throws
    files: string -> Option<seq<string>>,           // the recursive EnumerateFiles; None: it throws
    clientCreated: nat -> bool,                     // whether IntegrationServiceClient.Create gave agent `i` a client
    draw: DrawSite -> nat,                          // what GetRandomTime returned at each site
    maxDelay: nat)                                  // the longest wait Task.Delay accepts, in milliseconds

  // `maxDelay` depends on the runtime: `int.MaxValue` milliseconds before .NET 6, `0xFFFFFFFE`
  // from .NET 6 on; a longer `TimeSpan` makes `Task.Delay` throw `ArgumentOutOfRangeException`.

  /** Why a run ends with exit code -1. */
  datatype ImportError =
    | BlankPath          // ArgumentException: "Directory is null or empty."
    | MissingDirectory   // ArgumentException: "Directory does not exist."
    | IncorrectPath      // ApplicationException: "Import path ... is incorrect."
    | ListingFailed      // Directory.GetDirectories threw
    | AgentFailed        // an agent's file enumeration, one of its Task.Delay calls or its count threw
    | CountOverflow      // the checked Sum of the agents' counts overflowed

  /** `GetDocumentsFolder`: the guards in order, then the full path of the cleaned-up folder. */
  function GetDocumentsFolder(importFolder: Option<string>, env: Environment): Result<string, ImportError> {
    if IsNullOrWhiteSpace(importFolder) then Failure(BlankPath)
    else if !env.directoryExists(importFolder.value) then Failure(MissingDirectory)
    else
      var documentsPath := ReplaceSpecialSymbols(importFolder);
      if documentsPath.None? || !env.directoryExists(documentsPath.value) then Failure(IncorrectPath)
      else Success(env.fullPath(documentsPath.value))
  }

  // ---------------------------------------------------------------------------------------------
  // Agents

  /** What one agent did: its folder, its start delay, the portion tasks it planned and the files it counted. */
  datatype AgentRun = AgentRun(folder: string, startDelay: Duration, tasks: seq<PortionTask>, count: nat)

  /**
   * The body of agent `agent` for `subfolder`: wait `GetRandomTime(AgentStartTimeout)`; without a
   * client, count nothing; otherwise plan the files in the upload order, wait as the plan says,
   * and count them. `Task.Delay` throws for a wait past `maxDelay`, `files.Count()` past
   * `int.MaxValue`.
   */
  function AgentRunOf(agent: nat, subfolder: string, s: DocumentUploadSettings, env: Environment): Option<AgentRun> {
    var startDelay := env.draw(AgentStart(agent));
    if startDelay > env.maxDelay then None
    else if !env.clientCreated(agent) then Some(AgentRun(subfolder, startDelay, [], 0))
    else match env.files(subfolder)
      case None => None
      case Some(files) =>
        var tasks := Plan(agent, files, s, s.uploadOrder, env.draw);
        if !DelaysFit(tasks, env.maxDelay) || |files| > MaxInt32 then None
        else Some(AgentRun(subfolder, startDelay, tasks, |files|))
  }

  /** The folders that get an agent: the subfolders of the documents folder, or the folder itself when it has none. */
  function AgentFolders(documentsFolder: string, env: Environment): Option<seq<string>> {
    match env.subdirectories(env.fullPath(documentsFolder))
    case None => None
    case Some(subfolders) => if |subfolders| == 0 then Some([documentsFolder]) else Some(subfolders)
  }

  /** `Task.WhenAll(agents)`: every agent's result in order, or a failure if any agent failed. */
  function WhenAll(outcomes: seq<Option<AgentRun>>): (runs: Option<seq<AgentRun>>)
    ensures runs.Some? ==> |runs.value| == |outcomes|
  {
    if |outcomes| == 0 then Some([])
    else match WhenAll(outcomes[..|outcomes| - 1])
      case None => None
      case Some(runs) =>
        match outcomes[|outcomes| - 1]
        case None => None
        case Some(run) => Some(runs + [run])
  }

  function Counts(runs: seq<AgentRun>): (counts: seq<nat>)
    ensures |counts| == |runs| && forall i :: 0 <= i < |runs| ==> counts[i] == runs[i].count
  {
    seq(|runs|, i requires 0 <= i < |runs| => runs[i].count)
  }

  /** The outcome of a run that got past every check. */
  datatype ImportSummary = ImportSummary(documentsFolder: string, agents: seq<AgentRun>, documentsCount: int)

  /** The agents' outcomes, one per folder, agent `i` on `folders[i]`. */
  function AgentOutcomes(folders: seq<string>, s: DocumentUploadSettings, env: Environment): (outcomes: seq<Option<AgentRun>>)
    ensures |outcomes| == |folders|
  {
    seq(|folders|, i requires 0 <= i < |folders| => AgentRunOf(i, folders[i], s, env))
  }

  /** `(await Task.WhenAll(agents)).Sum()`: every agent's run and the checked total of their counts. */
  function Aggregate(documentsFolder: string, outcomes: seq<Option<AgentRun>>): Result<ImportSummary, ImportError> {
    match WhenAll(outcomes)
    case None => Failure(AgentFailed)
    case Some(runs) =>
      match Repository.CheckedSum(0, Counts(runs))
      case None => Failure(CountOverflow)
      case Some(total) => Success(ImportSummary(documentsFolder, runs, total))
  }

  /** The whole of `ImportFrom`, as a value. */
  function ImportRun(path: Option<string>, s: DocumentUploadSettings, env: Environment): Result<ImportSummary, ImportError> {
    match GetDocumentsFolder(path, env)
    case Failure(e) => Failure(e)
    case Success(folder) =>
      match AgentFolders(folder, env)
      case None => Failure(ListingFailed)
      case Some(folders) => Aggregate(folder, AgentOutcomes(folders, s, env))
  }

  // ---------------------------------------------------------------------------------------------
  // The methods

  /** `ImportDocuments`: enumerate the folder's files, upload them in the configured order, return their count. */
  method ImportDocuments(agent: nat, documentsFolder: string, s: DocumentUploadSettings, env: Environment)
    returns (result: Option<(seq<PortionTask>, nat)>)
    ensures env.files(documentsFolder).None? ==> result.None?
    ensures env.files(documentsFolder).Some? ==>
      var files := env.files(documentsFolder).value;
      var tasks := Plan(agent, files, s, s.uploadOrder, env.draw);
      result == if !DelaysFit(tasks, env.maxDelay) || |files| > MaxInt32 then None else Some((tasks, |files|))
  {
    var enumerated := env.files(documentsFolder);
    if enumerated.None? {
      return None;
    }
    var files := enumerated.value;
    var tasks: seq<PortionTask>;
    if s.uploadOrder == Sequential {
      tasks := ImportDocumentsSequential(agent, files, s, env.draw);
    } else {
      tasks := ImportDocumentsParallel(agent, files, s, env.draw);
    }
    if !DelaysFit(tasks, env.maxDelay) || |files| > MaxInt32 {
      return None;
    }
    result := Some((tasks, |files|));
  }

  /** The `Task.Run` body that `ImportFrom` starts for one agent. */
  method RunAgent(agent: nat, subfolder: string, s: DocumentUploadSettings, env: Environment) returns (run: Option<AgentRun>)
    ensures run == AgentRunOf(agent, subfolder, s, env)
  {
    var timeout := env.draw(AgentStart(agent));
    if timeout > env.maxDelay {
      return None;
    }
    if !env.clientCreated(agent) {
      return Some(AgentRun(subfolder, timeout, [], 0));
    }
    var imported := ImportDocuments(agent, subfolder, s, env);
    if imported.None? {
      return None;
    }
    run := Some(AgentRun(subfolder, timeout, imported.value.0, imported.value.1));
  }

  /** The loop of `ImportFrom` that starts one agent per folder, agent `i` on `subfolders[i]`. */
  method StartAgents(subfolders: seq<string>, s: DocumentUploadSettings, env: Environment) returns (agents: seq<Option<AgentRun>>)
    ensures agents == AgentOutcomes(subfolders, s, env)
  {
    agents := [];
    for i := 0 to |subfolders|
      invariant |agents| == i
      invariant forall j :: 0 <= j < i ==> agents[j] == AgentRunOf(j, subfolders[j], s, env)
    {
      var agent := RunAgent(i, subfolders[i], s, env);
      agents := agents + [agent];
    }
  }

  /** `ImportFrom`: returns the exit code and, for the model, the run it describes. */
  method ImportFrom(path: Option<string>, s: DocumentUploadSettings, env: Environment)
    returns (exitCode: int, run: Result<ImportSummary, ImportError>)
    ensures run == ImportRun(path, s, env)
    ensures exitCode == 0 <==> run.Success?
    ensures exitCode == 0 || exitCode == -1
  {
    var documentsFolder := GetDocumentsFolder(path, env);
    if documentsFolder.Failure? {
      return -1, Failure(documentsFolder.error);
    }
    var folder := documentsFolder.value;
    var listed := env.subdirectories(env.fullPath(folder));
    if listed.None? {
      return -1, Failure(ListingFailed);
    }
    var subfolders := listed.value;
    if |subfolders| == 0 {
      subfolders := [folder];
    }
    var agents := StartAgents(subfolders, s, env);
    run := Aggregate(folder, agents);
    exitCode := if run.Success? then 0 else -1;
  }

  // ---------------------------------------------------------------------------------------------
  // The import folder: properties

  /**
   * `ReplaceSpecialSymbols` keeps `null` and only `null` as `null`; what it returns has no quote
   * of either kind and no surrounding white space, so a second call changes nothing, and a path
   * that is already clean comes back as it is.
   */
  lemma ReplaceSpecialSymbolsCleans(path: Option<string>)
    ensures ReplaceSpecialSymbols(path).None? <==> path.None?
    ensures path.Some? ==> '\'' !in ReplaceSpecialSymbols(path).value && '"' !in ReplaceSpecialSymbols(path).value
    ensures path.Some? ==> Trim(ReplaceSpecialSymbols(path).value) == ReplaceSpecialSymbols(path).value
    ensures ReplaceSpecialSymbols(ReplaceSpecialSymbols(path)) == ReplaceSpecialSymbols(path)
    ensures path.Some? && '\'' !in path.value && '"' !in path.value && Trim(path.value) == path.value ==>
      ReplaceSpecialSymbols(path) == path
  {
    if path.Some? {
      var withoutApostrophes := RemoveAll(path.value, '\'');
      var withoutQuotes := RemoveAll(withoutApostrophes, '"');
      var t := Trim(withoutQuotes);
      assert multiset(withoutQuotes)['\''] == multiset(withoutApostrophes)['\''] == 0;
      TrimIsSlice(withoutQuotes, IsWhiteSpace);
      assert '\'' !in t && '"' !in t;
      TrimIdempotent(withoutQuotes, IsWhiteSpace);
    }
  }

  /**
   * The guards of `GetDocumentsFolder`: a blank path, and only a blank path, is refused first; a
   * path that is not a directory next; and the folder it returns is the full path of the cleaned
   * path, which is an existing directory.
   */
  lemma GetDocumentsFolderGuards(path: Option<string>, env: Environment)
    ensures GetDocumentsFolder(path, env) == Failure(BlankPath) <==> IsNullOrWhiteSpace(path)
    ensures !IsNullOrWhiteSpace(path) && !env.directoryExists(path.value) ==>
      GetDocumentsFolder(path, env) == Failure(MissingDirectory)
    ensures GetDocumentsFolder(path, env).Success? <==>
      && !IsNullOrWhiteSpace(path)
      && env.directoryExists(path.value)
      && env.directoryExists(ReplaceSpecialSymbols(path).value)
    ensures GetDocumentsFolder(path, env).Success? ==>
      GetDocumentsFolder(path, env).value == env.fullPath(ReplaceSpecialSymbols(path).value)
  {
    ReplaceSpecialSymbolsCleans(path);
  }

  /** A blank or missing import folder ends the run with its error before any agent starts. */
  lemma InvalidFolderStopsRun(path: Option<string>, s: DocumentUploadSettings, env: Environment)
    requires IsNullOrWhiteSpace(path) || !env.directoryExists(path.value)
    ensures ImportRun(path, s, env).Failure?
    ensures ImportRun(path, s, env).error == if IsNullOrWhiteSpace(path) then BlankPath else MissingDirectory
  {
  }

  // ---------------------------------------------------------------------------------------------
  // Agents and the total: properties

  /** `WhenAll` succeeds exactly when every agent did, and then gives their runs in agent order. */
  lemma {:induction false} WhenAllRuns(outcomes: seq<Option<AgentRun>>)
    ensures WhenAll(outcomes).Some? <==> forall i :: 0 <= i < |outcomes| ==> outcomes[i].Some?
    ensures WhenAll(outcomes).Some? ==>
      && |WhenAll(outcomes).value| == |outcomes|
      && forall i :: 0 <= i < |outcomes| ==> WhenAll(outcomes).value[i] == outcomes[i].value
  {
    if |outcomes| > 0 {
      var prefix := outcomes[..|outcomes| - 1];
      WhenAllRuns(prefix);
      assert forall i :: 0 <= i < |prefix| ==> prefix[i] == outcomes[i];
    }
  }

  /** Over counts that are never negative the checked sum fails exactly when the true sum passes `int.MaxValue`. */
  lemma {:induction false} CheckedSumOfCounts(acc: nat, xs: seq<nat>)
    requires acc <= MaxInt32
    ensures Repository.CheckedSum(acc, xs) == if acc + Sum(xs) <= MaxInt32 then Some(acc + Sum(xs)) else None
    decreases |xs|
  {
    if |xs| > 0 && acc + xs[0] <= MaxInt32 {
      CheckedSumOfCounts(acc + xs[0], xs[1..]);
    }
  }

  /**
   * After a run that got through there is one agent per subfolder, or one for the documents
   * folder when it has none; agent `i` works on folder `i`, waited its own draw, counted the files
   * of its folder when it got a client and nothing otherwise, and the total is the sum of the
   * agents' counts.
   */
  lemma RunAgents(path: Option<string>, s: DocumentUploadSettings, env: Environment)
    requires ImportRun(path, s, env).Success?
    ensures var summary := ImportRun(path, s, env).value;
      var subfolders := env.subdirectories(env.fullPath(summary.documentsFolder));
      && subfolders.Some?
      && |summary.agents| == (if |subfolders.value| == 0 then 1 else |subfolders.value|)
      && (|subfolders.value| == 0 ==> summary.agents[0].folder == summary.documentsFolder)
      && (|subfolders.value| > 0 ==> forall i :: 0 <= i < |summary.agents| ==> summary.agents[i].folder == subfolders.value[i])
    ensures var summary := ImportRun(path, s, env).value;
      forall i :: 0 <= i < |summary.agents| ==> Some(summary.agents[i]) == AgentRunOf(i, summary.agents[i].folder, s, env)
    ensures var summary := ImportRun(path, s, env).value;
      summary.documentsCount == Sum(Counts(summary.agents)) <= MaxInt32
  {
    var folder := GetDocumentsFolder(path, env).value;
    var folders := AgentFolders(folder, env).value;
    AggregateRuns(folder, folders, s, env);
  }

  /** When every agent got through, agent `i` ran on `folders[i]` and the total is the sum of their counts. */
  lemma AggregateRuns(documentsFolder: string, folders: seq<string>, s: DocumentUploadSettings, env: Environment)
    requires Aggregate(documentsFolder, AgentOutcomes(folders, s, env)).Success?
    ensures var summary := Aggregate(documentsFolder, AgentOutcomes(folders, s, env)).value;
      && summary.documentsFolder == documentsFolder
      && |summary.agents| == |folders|
      && (forall i :: 0 <= i < |folders| ==> Some(summary.agents[i]) == AgentRunOf(i, folders[i], s, env))
      && summary.documentsCount == Sum(Counts(summary.agents)) <= MaxInt32
  {
    var outcomes := AgentOutcomes(folders, s, env);
    WhenAllRuns(outcomes);
    var runs := WhenAll(outcomes).value;
    forall i | 0 <= i < |folders|
      ensures Some(runs[i]) == AgentRunOf(i, folders[i], s, env)
    {
      assert outcomes[i] == AgentRunOf(i, folders[i], s, env);
    }
    CheckedSumOfCounts(0, Counts(runs));
  }

  /**
   * What one agent gives: it keeps its folder and waits its own draw, and fails when `Task.Delay`
   * refuses that wait; without a client it then counts nothing and plans nothing; with one it
   * fails exactly when its files cannot be enumerated, one of its plan's waits is refused or the
   * files cannot be counted, and otherwise counts them and plans the upload of each exactly once,
   * in order.
   */
  lemma AgentRunFacts(agent: nat, subfolder: string, s: DocumentUploadSettings, env: Environment)
    ensures AgentRunOf(agent, subfolder, s, env).Some? ==>
      && AgentRunOf(agent, subfolder, s, env).value.folder == subfolder
      && AgentRunOf(agent, subfolder, s, env).value.startDelay == env.draw(AgentStart(agent))
      && DelaysFit(AgentRunOf(agent, subfolder, s, env).value.tasks, env.maxDelay)
    ensures env.draw(AgentStart(agent)) > env.maxDelay ==> AgentRunOf(agent, subfolder, s, env).None?
    ensures !env.clientCreated(agent) && env.draw(AgentStart(agent)) <= env.maxDelay ==>
      AgentRunOf(agent, subfolder, s, env).Some? && AgentRunOf(agent, subfolder, s, env).value.count == 0
      && AgentRunOf(agent, subfolder, s, env).value.tasks == []
    ensures env.clientCreated(agent) ==>
      (AgentRunOf(agent, subfolder, s, env).None? <==>
        || env.draw(AgentStart(agent)) > env.maxDelay
        || env.files(subfolder).None?
        || !DelaysFit(Plan(agent, env.files(subfolder).value, s, s.uploadOrder, env.draw), env.maxDelay)
        || |env.files(subfolder).value| > MaxInt32)
    ensures env.clientCreated(agent) && AgentRunOf(agent, subfolder, s, env).Some? ==>
      var run := AgentRunOf(agent, subfolder, s, env).value;
      && run.count == |env.files(subfolder).value|
      && PlanFiles(run.tasks) == env.files(subfolder).value
  {
    if env.clientCreated(agent) && env.files(subfolder).Some? {
      PlanCoversFiles(agent, env.files(subfolder).value, s, s.uploadOrder, env.draw);
    }
  }

  /** The agents' results fail the run exactly when one agent failed; otherwise the total overflows exactly when the counts add up past `int.MaxValue`. */
  lemma AggregateOutcome(documentsFolder: string, outcomes: seq<Option<AgentRun>>)
    ensures Aggregate(documentsFolder, outcomes) == Failure(AgentFailed) <==>
      exists i :: 0 <= i < |outcomes| && outcomes[i].None?
    ensures WhenAll(outcomes).Some? ==>
      (Aggregate(documentsFolder, outcomes) == Failure(CountOverflow) <==> Sum(Counts(WhenAll(outcomes).value)) > MaxInt32)
  {
    WhenAllRuns(outcomes);
    if WhenAll(outcomes).Some? {
      CheckedSumOfCounts(0, Counts(WhenAll(outcomes).value));
    }
  }

  // ---------------------------------------------------------------------------------------------
  // Two runs end to end

  /**
   * Two subfolders of three files each, portions of two, one file per request, sequential order:
   * two agents, each with a portion of two files and a portion of one, uploaded one at a time;
   * six files in all.
   */
  lemma TwoFoldersOfThreeFiles(path: Option<string>, s: DocumentUploadSettings, env: Environment, a: string, b: string)
    requires GetDocumentsFolder(path, env).Success?
    requires env.subdirectories(env.fullPath(GetDocumentsFolder(path, env).value)) == Some([a, b])
    requires env.files(a).Some? && |env.files(a).value| == 3
    requires env.files(b).Some? && |env.files(b).value| == 3
    requires env.clientCreated(0) && env.clientCreated(1)
    requires s.portionSize == 2 && s.batchSize == 0 && s.uploadOrder == Sequential
    requires ValidDraws(env.draw, s) && s.agentStartTimeout <= env.maxDelay
    requires 2 * s.uploadPortionsInterval <= env.maxDelay && 2 * s.uploadInterval <= env.maxDelay
    ensures ImportRun(path, s, env).Success?
    ensures var summary := ImportRun(path, s, env).value;
      && |summary.agents| == 2
      && summary.documentsCount == 6
      && summary.agents[0].folder == a && summary.agents[1].folder == b
    ensures var agents := ImportRun(path, s, env).value.agents;
      var fa := env.files(a).value;
      && |agents[0].tasks| == 2
      && agents[0].tasks[0].units == [Single(fa[0]), Single(fa[1])]
      && agents[0].tasks[1].units == [Single(fa[2])]
    ensures var agents := ImportRun(path, s, env).value.agents;
      var fb := env.files(b).value;
      && |agents[1].tasks| == 2
      && agents[1].tasks[0].units == [Single(fb[0]), Single(fb[1])]
      && agents[1].tasks[1].units == [Single(fb[2])]
  {
    var folder := GetDocumentsFolder(path, env).value;
    assert ImportRun(path, s, env) == Aggregate(folder, AgentOutcomes([a, b], s, env));
    AgentOfThreeFiles(0, a, s, env);
    AgentOfThreeFiles(1, b, s, env);
    TwoAgentsAggregate(folder, AgentRunOf(0, a, s, env).value, AgentRunOf(1, b, s, env).value,
                       AgentOutcomes([a, b], s, env));
  }

  /** Two agents that each uploaded three files add up to six. */
  lemma TwoAgentsAggregate(folder: string, ra: AgentRun, rb: AgentRun, outcomes: seq<Option<AgentRun>>)
    requires outcomes == [Some(ra), Some(rb)] && ra.count == 3 && rb.count == 3
    ensures Aggregate(folder, outcomes) == Success(ImportSummary(folder, [ra, rb], 6))
  {
    WhenAllRuns(outcomes);
    assert WhenAll(outcomes).value == [ra, rb];
    assert Counts([ra, rb]) == [3, 3];
    CheckedSumOfCounts(0, [3, 3]);
    assert Sum([3, 3]) == 6 by {
      assert [3, 3][1..] == [3];
      assert Sum([3]) == 3 + Sum([]);
    }
  }

  /** One agent with a client, over three files in portions of two, one file per request. */
  lemma AgentOfThreeFiles(agent: nat, folder: string, s: DocumentUploadSettings, env: Environment)
    requires env.files(folder).Some? && |env.files(folder).value| == 3
    requires env.clientCreated(agent)
    requires s.portionSize == 2 && s.batchSize == 0 && s.uploadOrder == Sequential
    requires ValidDraws(env.draw, s) && s.agentStartTimeout <= env.maxDelay
    requires 2 * s.uploadPortionsInterval <= env.maxDelay && 2 * s.uploadInterval <= env.maxDelay
    ensures AgentRunOf(agent, folder, s, env).Some?
    ensures var run := AgentRunOf(agent, folder, s, env).value;
      var files := env.files(folder).value;
      && run.folder == folder
      && run.count == 3
      && |run.tasks| == 2
      && run.tasks[0].units == [Single(files[0]), Single(files[1])]
      && run.tasks[1].units == [Single(files[2])]
  {
    ThreeFilesInPortionsOfTwo(agent, env.files(folder).value, s, env.draw);
    AgentStartBelowTimeout(agent, s, env.draw);
    PlanDelaysFit(agent, env.files(folder).value, s, Sequential, env.draw, env.maxDelay);
  }

  /**
   * An agent with a client fails when a portion would start later than `Task.Delay` can wait:
   * two files in portions of one and an `UploadPortionsInterval` past the limit.
   */
  lemma LatePortionFailsAgent(agent: nat, folder: string, s: DocumentUploadSettings, env: Environment)
    requires env.files(folder).Some? && |env.files(folder).value| == 2
    requires env.clientCreated(agent)
    requires s.portionSize == 1 && s.uploadPortionsInterval > env.maxDelay
    ensures AgentRunOf(agent, folder, s, env).None?
  {
    LatePortionBreaksDelays(agent, env.files(folder).value, s, s.uploadOrder, env.draw, env.maxDelay);
  }

  /**
   * A documents folder without subfolders and five files, one portion, batches of two, parallel
   * order: one agent whose single portion sends three batches, of two, two and one files, at once;
   * five files in all.
   */
  lemma OneFolderOfFiveFiles(path: Option<string>, s: DocumentUploadSettings, env: Environment, folder: string)
    requires GetDocumentsFolder(path, env) == Success(folder)
    requires env.subdirectories(env.fullPath(folder)) == Some([])
    requires env.files(folder).Some? && |env.files(folder).value| == 5
    requires env.clientCreated(0)
    requires s.portionSize <= 0 && s.batchSize == 2 && s.uploadOrder == Parallel
    requires ValidDraws(env.draw, s) && s.agentStartTimeout <= env.maxDelay && s.uploadPortionsInterval <= env.maxDelay
    ensures ImportRun(path, s, env).Success?
    ensures var summary := ImportRun(path, s, env).value;
      var files := env.files(folder).value;
      && summary.documentsFolder == folder
      && |summary.agents| == 1
      && summary.documentsCount == 5
      && summary.agents[0].tasks == [PortionTask(
           env.draw(PortionStart(0, 0)),
           [Batch(files[..2]), Batch(files[2..4]), Batch(files[4..])],
           Concurrent)]
  {
    assert ImportRun(path, s, env) == Aggregate(folder, AgentOutcomes([folder], s, env));
    AgentOfFiveFiles(0, folder, s, env);
    OneAgentAggregate(folder, AgentRunOf(0, folder, s, env).value, AgentOutcomes([folder], s, env));
  }

  /** A single agent's run is the whole summary, its count the total. */
  lemma OneAgentAggregate(folder: string, run: AgentRun, outcomes: seq<Option<AgentRun>>)
    requires outcomes == [Some(run)] && run.count <= MaxInt32
    ensures Aggregate(folder, outcomes) == Success(ImportSummary(folder, [run], run.count))
  {
    WhenAllRuns(outcomes);
    assert WhenAll(outcomes).value == [run];
    assert Counts([run]) == [run.count];
    CheckedSumOfCounts(0, [run.count]);
    assert Sum([run.count]) == run.count + Sum([]);
  }

  /** One agent with a client, over five files in one portion, batches of two, parallel order. */
  lemma AgentOfFiveFiles(agent: nat, folder: string, s: DocumentUploadSettings, env: Environment)
    requires env.files(folder).Some? && |env.files(folder).value| == 5
    requires env.clientCreated(agent)
    requires s.portionSize <= 0 && s.batchSize == 2 && s.uploadOrder == Parallel
    requires ValidDraws(env.draw, s) && s.agentStartTimeout <= env.maxDelay && s.uploadPortionsInterval <= env.maxDelay
    ensures var files := env.files(folder).value;
      AgentRunOf(agent, folder, s, env) == Some(AgentRun(
        folder,
        env.draw(AgentStart(agent)),
        [PortionTask(env.draw(PortionStart(agent, 0)), [Batch(files[..2]), Batch(files[2..4]), Batch(files[4..])], Concurrent)],
        5))
  {
    var files := env.files(folder).value;
    FiveFilesInBatchesOfTwo(agent, files, s, env.draw);
    var tasks := Plan(agent, files, s, Parallel, env.draw);
    assert tasks[0] == PortionPlan(agent, 0, files, s, Parallel, env.draw);
    assert tasks == [PortionTask(env.draw(PortionStart(agent, 0)), tasks[0].units, Concurrent)];
    AgentStartBelowTimeout(agent, s, env.draw);
    PlanDelaysFit(agent, env.files(folder).value, s, Parallel, env.draw, env.maxDelay);
  }
}
