/**
 * `DocumentsCommand.ImportDocumentsHandler`: the handler of `import`. It refuses a batch size
 * larger than a positive portion size, copies its arguments into a `DocumentUploadSettings`,
 * builds the connection settings (asking the service to return results only in discrete mode)
 * and hands both to the importer.
 */
module DocumentsCommand {
  import opened Wrappers
  import opened Settings
  import opened Schedule
  import opened Importer

  /** The connection settings the handler builds for `IntegrationServiceClient`. */
  datatype IntegrationServiceSettings = IntegrationServiceSettings(
    userName: string,
    password: string,
    serviceUrl: string,
    needReturnResult: bool)  // whether the service returns the created entities

  /** The arguments of `ImportDocumentsHandler`, bound from the command line. */
  datatype ImportArguments = ImportArguments(
    username: string,
    password: string,
    service: string,
    path: Option<string>,
    agentStartTimeout: Duration,
    uploadOrder: DocumentUploadOrder,
    portionSize: Int32,
    uploadPortionsInterval: Duration,
    uploadInterval: Duration,
    batchSize: Int32,
    trace: bool)

  // The defaults of the options of `import`.
  const DefaultAgentStartTimeout: Duration := 0
  const DefaultPortionSize: Int32 := -1
  const DefaultUploadPortionsInterval: Duration := 0
  const DefaultUploadInterval: Duration := 0
  const DefaultUploadOrder: DocumentUploadOrder := Sequential
  const DefaultBatchSize: Int32 := 1
  const DefaultTrace: bool := true

  /** The arguments when only the connection and `--path` are given. */
  function DefaultArguments(username: string, password: string, service: string, path: Option<string>): ImportArguments {
    ImportArguments(username, password, service, path, DefaultAgentStartTimeout, DefaultUploadOrder,
                    DefaultPortionSize, DefaultUploadPortionsInterval, DefaultUploadInterval, DefaultBatchSize, DefaultTrace)
  }

  /** The `ArgumentException` the handler throws. */
  datatype CommandError = BatchExceedsPortion  // "Batch size must be no more than portion size"

  /** What the handler passes to the importer. */
  datatype ImportRequest = ImportRequest(
    clientSettings: IntegrationServiceSettings,
    path: Option<string>,
    uploadSettings: DocumentUploadSettings)

  /** `ImportDocumentsHandler` up to the call of `ImportFrom`: the check, then the two settings objects. */
  function ImportDocumentsHandler(args: ImportArguments): Result<ImportRequest, CommandError> {
    if args.portionSize > 0 && args.batchSize >= 0 && args.batchSize > args.portionSize then
      Failure(BatchExceedsPortion)
    else
      var uploadSettings := DocumentUploadSettings(
        args.agentStartTimeout, args.uploadOrder, args.portionSize,
        args.uploadPortionsInterval, args.uploadInterval, args.trace, args.batchSize);
      var clientSettings := IntegrationServiceSettings(args.username, args.password, args.service, args.batchSize <= 0);
      Success(ImportRequest(clientSettings, args.path, uploadSettings))
  }

  /**
   * The whole handler: a refused argument set throws before anything is imported; otherwise the
   * result is the exit code of `ImportFrom` with the settings the handler built. The client
   * settings reach the importer only through `env.clientCreated`.
   */
  function RunImport(args: ImportArguments, env: Environment): Result<int, CommandError> {
    match ImportDocumentsHandler(args)
    case Failure(e) => Failure(e)
    case Success(request) =>
      Success(if ImportRun(request.path, request.uploadSettings, env).Success? then 0 else -1)
  }

  // ---------------------------------------------------------------------------------------------
  // Properties

  /**
   * The handler refuses exactly a batch size larger than a positive portion size; its
   * `batchSize >= 0` test adds nothing, and with no portioning (`portionSize <= 0`) every batch
   * size is accepted.
   */
  lemma HandlerRejects(args: ImportArguments)
    ensures ImportDocumentsHandler(args).Failure? <==> args.portionSize > 0 && args.batchSize > args.portionSize
    ensures args.portionSize <= 0 ==> ImportDocumentsHandler(args).Success?
  {
  }

  /**
   * An accepted argument set reaches the importer unchanged: the path, every upload setting and
   * the connection settings; and in every portion the batches hold no more files than the
   * portion does.
   */
  lemma HandlerCopiesArguments(args: ImportArguments)
    requires ImportDocumentsHandler(args).Success?
    ensures var request := ImportDocumentsHandler(args).value;
      var u := request.uploadSettings;
      && request.path == args.path
      && u.agentStartTimeout == args.agentStartTimeout && u.uploadOrder == args.uploadOrder
      && u.portionSize == args.portionSize && u.batchSize == args.batchSize
      && u.uploadPortionsInterval == args.uploadPortionsInterval && u.uploadInterval == args.uploadInterval
      && u.isTraceEnabled == args.trace
      && request.clientSettings.userName == args.username
      && request.clientSettings.password == args.password
      && request.clientSettings.serviceUrl == args.service
    ensures var u := ImportDocumentsHandler(args).value.uploadSettings;
      u.portionSize > 0 && u.batchSize > 0 ==> u.batchSize <= u.portionSize
  {
  }

  /**
   * The service is asked to return results exactly in discrete mode, that is exactly when every
   * portion is uploaded one file per request.
   */
  lemma ReturnResultInDiscreteMode(args: ImportArguments, portion: seq<string>)
    requires ImportDocumentsHandler(args).Success?
    ensures var request := ImportDocumentsHandler(args).value;
      request.clientSettings.needReturnResult <==> args.batchSize <= 0
    ensures var request := ImportDocumentsHandler(args).value;
      request.clientSettings.needReturnResult ==> UnitsOf(portion, request.uploadSettings.batchSize) == Singles(portion)
    ensures var request := ImportDocumentsHandler(args).value;
      !request.clientSettings.needReturnResult && |portion| > 0 ==>
        forall k :: 0 <= k < |UnitsOf(portion, request.uploadSettings.batchSize)| ==>
          UnitsOf(portion, request.uploadSettings.batchSize)[k].Batch?
  {
  }

  /**
   * With the defaults every argument set is accepted: all of a folder's files form one portion,
   * uploaded in batches of one file, in sequential order, with no waiting and with tracing on.
   */
  lemma DefaultsAccepted(username: string, password: string, service: string, path: Option<string>)
    ensures var r := ImportDocumentsHandler(DefaultArguments(username, password, service, path));
      && r.Success?
      && r.value.uploadSettings == DocumentUploadSettings(0, Sequential, -1, 0, 0, true, 1)
      && !r.value.clientSettings.needReturnResult
  {
  }

  /** A portion size of 3 with a batch size of 5 is refused before anything is imported. */
  lemma PortionThreeBatchFiveRefused(args: ImportArguments, env: Environment)
    requires args.portionSize == 3 && args.batchSize == 5
    ensures ImportDocumentsHandler(args) == Failure(BatchExceedsPortion)
    ensures RunImport(args, env) == Failure(BatchExceedsPortion)
  {
  }

  /**
   * An accepted run returns 0 when the import got through and -1 after any exception inside
   * `ImportFrom`; a blank or missing folder gives -1.
   */
  lemma RunImportExitCode(args: ImportArguments, env: Environment)
    requires ImportDocumentsHandler(args).Success?
    ensures RunImport(args, env).Success?
    ensures RunImport(args, env).value == 0 <==>
      ImportRun(args.path, ImportDocumentsHandler(args).value.uploadSettings, env).Success?
    ensures RunImport(args, env).value == 0 || RunImport(args, env).value == -1
    ensures IsNullOrWhiteSpace(args.path) ==> RunImport(args, env).value == -1
  {
    var request := ImportDocumentsHandler(args).value;
    if IsNullOrWhiteSpace(args.path) {
      InvalidFolderStopsRun(args.path, request.uploadSettings, env);
    }
  }
}
