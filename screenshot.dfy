// The log.screenshot handler (UnityAgentSkills/Plugins/Log/Handlers/LogScreenshotCommandHandler.cs):
// CreateJob checks the params and names the PNG file from the context the batch
// executor injects; BeginCapture refuses an empty path and starts the capture.
// The file system and the Game view are inputs: `focusError` is the failure, if
// any, of bringing the Game view to the front.
module Screenshot {
  import opened Wrappers
  import opened Text
  import opened JsonValues
  import opened Commands
  import BatchExecutor

  const CommandType := "log.screenshot"

  /** The longest wait, in milliseconds, from starting a capture to a readable file. */
  const ScreenshotReadyTimeoutMs := 5000

  const MissingContextMessage := "Missing injected context fields: __batchId/__cmdId"
  const FocusFailurePrefix := "Failed to focus GameView: "

  datatype ScreenshotJob = ScreenshotJob(pngAbsolutePath: string)

  /** Path.Combine for a name that is not rooted: one separator between directory and name. */
  function PathCombine(dir: string, name: string): (r: string)
    ensures |name| <= |r| && r[|r| - |name|..] == name
    ensures dir != "" ==> |dir| <= |r| && r[..|dir|] == dir
  {
    if dir == "" then name
    else if dir[|dir| - 1] == '/' || dir[|dir| - 1] == '\\' then dir + name
    else dir + "/" + name
  }

  /** The file name: the batch id alone for a batch with one screenshot, else batch id, '_', command id. */
  function BaseName(batchId: string, cmdId: string, screenshotCommandCount: int): (r: string)
    ensures screenshotCommandCount <= 1 ==> r == batchId
    ensures screenshotCommandCount > 1 ==> r == batchId + "_" + cmdId
  {
    if screenshotCommandCount <= 1 then batchId else batchId + "_" + cmdId
  }

  /** The INVALID_FIELDS ArgumentException the handler throws for bad input. */
  function InvalidFieldsException(detail: string): (e: Exception)
    ensures e.kind == ArgumentException && StartsWith(e.message, InvalidFieldsCode + ": ")
    ensures e.message[|InvalidFieldsCode + ": "|..] == detail
  {
    Exception(ArgumentException, InvalidFieldsCode + ": " + detail)
  }

  /** CreateJob: the PNG path for one screenshot command. */
  function CreateJob(rawParams: Json, resultsDir: string, render: Json -> string): (r: Result<ScreenshotJob, Exception>)
    ensures !rawParams.JObject? ==> r == Failure(InvalidFieldsException("params must be an object"))
    ensures r.Success? ==>
              && GetString(rawParams, "__batchId", Some(""), render).Success?
              && GetString(rawParams, "__cmdId", Some(""), render).Success?
              && GetIntOr(rawParams, "__screenshotCommandCount", 1).Success?
              && var batchId := GetString(rawParams, "__batchId", Some(""), render).value;
                 var cmdId := GetString(rawParams, "__cmdId", Some(""), render).value;
                 var count := GetIntOr(rawParams, "__screenshotCommandCount", 1).value;
                 && batchId.Some? && batchId.value != "" && cmdId.Some? && cmdId.value != ""
                 && r.value.pngAbsolutePath == PathCombine(resultsDir, BaseName(batchId.value, cmdId.value, count) + ".png")
  {
    if !rawParams.JObject? then Failure(InvalidFieldsException("params must be an object"))
    else
      match GetString(rawParams, "__batchId", Some(""), render)
      case Failure(e) => Failure(e)
      case Success(batchId) =>
        match GetString(rawParams, "__cmdId", Some(""), render)
        case Failure(e) => Failure(e)
        case Success(cmdId) =>
          match GetIntOr(rawParams, "__screenshotCommandCount", 1)
          case Failure(e) => Failure(e)
          case Success(count) =>
            if batchId.None? || batchId.value == "" || cmdId.None? || cmdId.value == "" then
              Failure(Exception(InvalidOperationException, MissingContextMessage))
            else Success(ScreenshotJob(PathCombine(resultsDir, BaseName(batchId.value, cmdId.value, count) + ".png")))
  }

  /**
   * The context the batch executor injects is what CreateJob reads back: with a batch id and
   * a command id present, the job always succeeds and names the file after them.
   */
  lemma InjectedContextNamesFile(rawParams: Json, batchId: string, cmdId: string, count: int, resultsDir: string, render: Json -> string)
    requires batchId != "" && cmdId != ""
    ensures CreateJob(BatchExecutor.InjectScreenshotContext(rawParams, Some(batchId), Some(cmdId), count), resultsDir, render)
            == Success(ScreenshotJob(PathCombine(resultsDir, BaseName(batchId, cmdId, count) + ".png")))
  {
    var j := BatchExecutor.InjectScreenshotContext(rawParams, Some(batchId), Some(cmdId), count);
    assert Has(j, "__batchId") && Has(j, "__cmdId") && Has(j, "__screenshotCommandCount");
  }

  /** Without the injected ids, CreateJob reports the missing context (a RUNTIME_ERROR once mapped). */
  lemma MissingContextRejected(rawParams: Json, resultsDir: string, render: Json -> string)
    requires rawParams.JObject? && "__batchId" !in rawParams.fields
    requires !Has(rawParams, "__cmdId") || rawParams.fields["__cmdId"] != JNull
    requires !Has(rawParams, "__screenshotCommandCount") || rawParams.fields["__screenshotCommandCount"] != JNull
    ensures CreateJob(rawParams, resultsDir, render) == Failure(Exception(InvalidOperationException, MissingContextMessage))
  {
  }

  /** In a batch with several screenshots, commands with different ids write different files. */
  lemma DistinctNamesPerCommand(batchId: string, cmdId1: string, cmdId2: string, count: int)
    requires count > 1 && cmdId1 != cmdId2
    ensures BaseName(batchId, cmdId1, count) != BaseName(batchId, cmdId2, count)
  {
    var p := batchId + "_";
    assert BaseName(batchId, cmdId1, count) == p + cmdId1 && BaseName(batchId, cmdId2, count) == p + cmdId2;
    assert (p + cmdId1)[|p|..] == cmdId1 && (p + cmdId2)[|p|..] == cmdId2;
  }

  /** BeginCapture: an empty path is INVALID_FIELDS, a Game view that cannot be focused a runtime failure. */
  function BeginCapture(job: ScreenshotJob, focusError: Option<string>): (thrown: Option<Exception>)
    ensures job.pngAbsolutePath == "" ==> thrown == Some(InvalidFieldsException("missing png path"))
    ensures job.pngAbsolutePath != "" ==> (thrown.None? <==> focusError.None?)
    ensures job.pngAbsolutePath != "" && focusError.Some? ==>
              thrown.value.kind == InvalidOperationException && StartsWith(thrown.value.message, FocusFailurePrefix)
  {
    if job.pngAbsolutePath == "" then Some(InvalidFieldsException("missing png path"))
    else if focusError.Some? then Some(Exception(InvalidOperationException, FocusFailurePrefix + focusError.value))
    else None
  }

  /** BuildSuccessResult: single mode and the PNG path. */
  function BuildSuccessResult(job: ScreenshotJob): (j: Json)
    ensures j.JObject? && j.fields.Keys == {"mode", "imageAbsolutePath"}
    ensures j.fields["mode"] == JString("single") && j.fields["imageAbsolutePath"] == JString(job.pngAbsolutePath)
  {
    JObject(map["mode" := JString("single"), "imageAbsolutePath" := JString(job.pngAbsolutePath)])
  }

  /** Starting a capture: the result payload, or what CreateJob or BeginCapture threw. */
  function StartCapture(rawParams: Json, resultsDir: string, render: Json -> string, focusError: Option<string>): (r: Result<Json, Exception>)
    ensures r.Success? <==> (CreateJob(rawParams, resultsDir, render).Success?
                             && BeginCapture(CreateJob(rawParams, resultsDir, render).value, focusError).None?)
    ensures r.Success? ==> r.value == BuildSuccessResult(CreateJob(rawParams, resultsDir, render).value)
  {
    match CreateJob(rawParams, resultsDir, render)
    case Failure(e) => Failure(e)
    case Success(job) =>
      match BeginCapture(job, focusError)
      case Some(e) => Failure(e)
      case None => Success(BuildSuccessResult(job))
  }
}
