// The serial batch executor, in its three copies:
//   UnityAgentSkills/Core/BatchCommandExecutor.cs           (Variant Skills)
//   UnitySkills/AgentCommands/Core/BatchCommandExecutor.cs  (Variant AgentCore)
//   UnitySkills/AgentCommands/BatchCommandExecutor.cs       (Variant AgentLegacy)
// They share the loop: a batch-timeout check before each command that skips it
// and every later one, then the handler call, then a per-command timeout check.
// They differ in how a thrown exception becomes a CommandError, and only the
// Skills copy passes the batch context to log.screenshot commands.
// The clock is an input: for command i, `batchElapsed[i]` is the time since the
// batch started when it is checked and `cmdElapsed[i]` the time its handler took,
// both in whole milliseconds. The handler call is `dispatch`, the registry's Execute.
module BatchExecutor {
  import opened Wrappers
  import opened Text
  import opened JsonValues
  import opened Commands
  import opened BatchParser

  datatype Variant = Skills | AgentCore | AgentLegacy

  /** The batch timeout when the file gives none (AgentCommandsConfig.DefaultBatchTimeoutMs). */
  const DefaultBatchTimeoutMs := 30000

  const ScreenshotType := "log.screenshot"
  const ProcessingBatchStatus := "processing"
  const CompletedBatchStatus := "completed"
  const RuntimeDetailPrefix := "异常详情: "

  /** Runs one command: the registry's Execute, a result or a thrown exception. */
  type Dispatch = (NullableString, Json) -> Result<Json, Exception>

  /** One command's outcome; `result` is JNull unless the command succeeded. */
  datatype BatchCommandResult = BatchCommandResult(id: NullableString, commandType: NullableString, status: string,
                                                   error: Option<CommandError>, result: Json)

  datatype BatchResult = BatchResult(batchId: NullableString, status: string, results: seq<BatchCommandResult>,
                                     totalCommands: nat, successCount: nat, failedCount: nat)

  /** BuildSkippedResult: an error carrying SKIPPED and the batch limit. */
  function SkippedResult(cmd: BatchCommand, batchTimeout: int): (r: BatchCommandResult)
    ensures r.id == cmd.id && r.commandType == cmd.commandType && r.status == ErrorStatus
    ensures r.error.Some? && r.error.value.code == SkippedCode && r.error.value.detail.Some?
    ensures Contains(r.error.value.detail.value, IntToString(batchTimeout) + "ms")
  {
    BatchCommandResult(cmd.id, cmd.commandType, ErrorStatus, Some(CreateSkippedError(batchTimeout)), JNull)
  }

  /**
   * string.Equals(type, "log.screenshot", OrdinalIgnoreCase); a null type is not equal.
   * ScreenshotType is already lower case, so only the type is folded.
   */
  predicate IsScreenshot(commandType: NullableString)
  {
    commandType.Some? && Lower(commandType.value) == ScreenshotType
  }

  /**
   * InjectScreenshotContext: a copy of the params object (or a fresh object when the
   * params are not one) with the batch id, the command id and the screenshot count added.
   */
  function InjectScreenshotContext(rawParams: Json, batchId: NullableString, cmdId: NullableString, count: int): (j: Json)
    ensures j.JObject? && "__batchId" in j.fields && "__cmdId" in j.fields && "__screenshotCommandCount" in j.fields
    ensures j.fields["__batchId"] == JString(OrEmpty(batchId))
    ensures j.fields["__cmdId"] == JString(OrEmpty(cmdId))
    ensures j.fields["__screenshotCommandCount"] == JInt(count)
    ensures rawParams.JObject? ==> j.fields.Keys == rawParams.fields.Keys + {"__batchId", "__cmdId", "__screenshotCommandCount"}
    ensures !rawParams.JObject? ==> j.fields.Keys == {"__batchId", "__cmdId", "__screenshotCommandCount"}
    ensures rawParams.JObject? ==> forall k :: k in rawParams.fields && k !in {"__batchId", "__cmdId", "__screenshotCommandCount"} ==>
              j.fields[k] == rawParams.fields[k]
  {
    var data := if rawParams.JObject? then rawParams.fields else map[];
    JObject(data["__batchId" := JString(OrEmpty(batchId))]["__cmdId" := JString(OrEmpty(cmdId))]
                ["__screenshotCommandCount" := JInt(count)])
  }

  /** The text after a "CODE:" prefix, trimmed, as the detail of a mapped error. */
  function DetailAfter(code: string, message: string): NullableString
    requires StartsWith(message, code + ":")
  {
    Some(TrimWhitespace(message[|code| + 1..]))
  }

  /**
   * The catch block: the command's own timeout wins, then the variant's prefix and
   * exception-kind rules in their fixed order, then RUNTIME_ERROR.
   */
  function MapException(v: Variant, ex: Exception, cmdType: NullableString, elapsedMs: int, cmdTimeout: int): (e: CommandError)
    ensures elapsedMs > cmdTimeout ==> e == CreateTimeoutError(elapsedMs, cmdTimeout)
    ensures elapsedMs <= cmdTimeout && ex.kind == NotSupportedException ==> e == CreateUnknownCommandError(cmdType, Some(ex.message))
    ensures elapsedMs <= cmdTimeout && ex.kind == OtherException ==> e == CreateRuntimeError(Some(RuntimeDetailPrefix + ex.message))
    ensures e.code in {TimeoutCode, InvalidFieldsCode, InvalidRegexCode, RuntimeErrorCode, UnknownTypeCode}
  {
    if elapsedMs > cmdTimeout then CreateTimeoutError(elapsedMs, cmdTimeout)
    else if v == Skills && ex.kind == ArgumentException && StartsWith(ex.message, TimeoutCode + ":") then
      CreateTimeoutError(elapsedMs, cmdTimeout)
    else if v != AgentLegacy && ex.kind == ArgumentException && StartsWith(ex.message, InvalidFieldsCode + ":") then
      CreateInvalidFieldsError(DetailAfter(InvalidFieldsCode, ex.message))
    else if ex.kind == InvalidOperationException && StartsWith(ex.message, InvalidRegexCode + ":") then
      if v == AgentLegacy then CreateInvalidRegexError(Some(ex.message))
      else CreateInvalidRegexError(DetailAfter(InvalidRegexCode, ex.message))
    else if v != AgentLegacy && ex.kind == InvalidOperationException && StartsWith(ex.message, PrefabNotFoundPrefix) then
      CreatePrefabNotFoundError(Some(ex.message[|PrefabNotFoundPrefix|..]))
    else if v != AgentLegacy && ex.kind == InvalidOperationException && StartsWith(ex.message, GameObjectNotFoundPrefix) then
      CreateGameObjectNotFoundError(Some(ex.message[|GameObjectNotFoundPrefix|..]))
    else if ex.kind == NotSupportedException then CreateUnknownCommandError(cmdType, Some(ex.message))
    else CreateRuntimeError(Some(RuntimeDetailPrefix + ex.message))
  }

  /**
   * A missing-field exception becomes INVALID_FIELDS with the text after the code as the
   * detail, in the two newer copies (in Skills, unless the text also reads as a timeout).
   */
  lemma InvalidFieldsMapped(v: Variant, detail: string, cmdType: NullableString, elapsedMs: int, cmdTimeout: int)
    requires elapsedMs <= cmdTimeout && v != AgentLegacy
    requires v == Skills ==> !StartsWith(InvalidFieldsCode + ": " + detail, TimeoutCode + ":")
    requires detail != [] && !IsBlank(detail[..1]) && !IsBlank(detail[|detail| - 1..])
    ensures MapException(v, Exception(ArgumentException, InvalidFieldsCode + ": " + detail), cmdType, elapsedMs, cmdTimeout)
            == CreateInvalidFieldsError(Some(detail))
  {
    var m := InvalidFieldsCode + ": " + detail;
    assert m[..|InvalidFieldsCode + ":"|] == InvalidFieldsCode + ":";
    assert m[|InvalidFieldsCode| + 1..] == " " + detail;
    assert (" " + detail)[..1] == " ";
    assert (" " + detail)[1..] == detail;
    assert TrimWhitespace(" " + detail) == TrimWhitespace(detail);
    assert TrimWhitespace(detail) == detail;
  }

  /** The oldest copy has no INVALID_FIELDS rule: the same exception is a RUNTIME_ERROR there. */
  lemma InvalidFieldsLegacy(detail: string, cmdType: NullableString, elapsedMs: int, cmdTimeout: int)
    requires elapsedMs <= cmdTimeout
    ensures MapException(AgentLegacy, Exception(ArgumentException, InvalidFieldsCode + ": " + detail), cmdType, elapsedMs, cmdTimeout)
            == CreateRuntimeError(Some(RuntimeDetailPrefix + InvalidFieldsCode + ": " + detail))
  {
    var m := InvalidFieldsCode + ": " + detail;
    assert !StartsWith(m, InvalidRegexCode + ":") by {
      assert m[8] != (InvalidRegexCode + ":")[8];
    }
    assert RuntimeDetailPrefix + m == RuntimeDetailPrefix + InvalidFieldsCode + ": " + detail;
  }

  /** Only the Skills copy turns a handler's TIMEOUT-prefixed ArgumentException into a timeout error. */
  lemma TimeoutPrefixMapped(v: Variant, rest: string, cmdType: NullableString, elapsedMs: int, cmdTimeout: int)
    requires elapsedMs <= cmdTimeout
    ensures MapException(Skills, Exception(ArgumentException, TimeoutCode + ":" + rest), cmdType, elapsedMs, cmdTimeout)
            == CreateTimeoutError(elapsedMs, cmdTimeout)
    ensures v != Skills && !StartsWith(TimeoutCode + ":" + rest, InvalidFieldsCode + ":") ==>
              MapException(v, Exception(ArgumentException, TimeoutCode + ":" + rest), cmdType, elapsedMs, cmdTimeout)
              == CreateRuntimeError(Some(RuntimeDetailPrefix + (TimeoutCode + ":" + rest)))
  {
    var m := TimeoutCode + ":" + rest;
    assert m[..|TimeoutCode + ":"|] == TimeoutCode + ":";
  }

  /** Everything one Execute call depends on. */
  datatype Run = Run(variant: Variant, batchId: NullableString, commands: seq<BatchCommand>, batchTimeout: int,
                     screenshotCount: int, batchElapsed: seq<int>, cmdElapsed: seq<int>, dispatch: Dispatch)

  predicate ClockCovers(run: Run)
  {
    |run.batchElapsed| == |run.commands| && |run.cmdElapsed| == |run.commands|
  }

  /** The params a command's handler receives. */
  function EffectiveParams(run: Run, cmd: BatchCommand): Json
  {
    if run.variant == Skills && IsScreenshot(cmd.commandType) then
      InjectScreenshotContext(cmd.params, run.batchId, cmd.id, run.screenshotCount)
    else cmd.params
  }

  /**
   * One executed command: success only when the handler returns within the command's
   * timeout, which defaults to the batch timeout; otherwise an error.
   */
  function RunCommand(run: Run, cmd: BatchCommand, elapsedMs: int): (r: BatchCommandResult)
    ensures r.id == cmd.id && r.commandType == cmd.commandType
    ensures r.status == SuccessStatus || r.status == ErrorStatus
    ensures r.status == SuccessStatus <==>
              run.dispatch(cmd.commandType, EffectiveParams(run, cmd)).Success? && elapsedMs <= cmd.timeout.GetOr(run.batchTimeout)
    ensures r.status == SuccessStatus ==> r.error.None? && r.result == run.dispatch(cmd.commandType, EffectiveParams(run, cmd)).value
    ensures r.status == ErrorStatus ==> r.error.Some? && r.result == JNull
    ensures elapsedMs > cmd.timeout.GetOr(run.batchTimeout) ==> r.error == Some(CreateTimeoutError(elapsedMs, cmd.timeout.GetOr(run.batchTimeout)))
  {
    var cmdTimeout := cmd.timeout.GetOr(run.batchTimeout);
    match run.dispatch(cmd.commandType, EffectiveParams(run, cmd))
    case Success(data) =>
      if elapsedMs > cmdTimeout then
        BatchCommandResult(cmd.id, cmd.commandType, ErrorStatus, Some(CreateTimeoutError(elapsedMs, cmdTimeout)), JNull)
      else BatchCommandResult(cmd.id, cmd.commandType, SuccessStatus, None, data)
    case Failure(ex) =>
      BatchCommandResult(cmd.id, cmd.commandType, ErrorStatus, Some(MapException(run.variant, ex, cmd.commandType, elapsedMs, cmdTimeout)), JNull)
  }

  /** SKIPPED results for the commands from index `i` on. */
  function SkippedFrom(cmds: seq<BatchCommand>, i: nat, batchTimeout: int): (r: seq<BatchCommandResult>)
    requires i <= |cmds|
    ensures |r| == |cmds| - i
    ensures forall k :: 0 <= k < |r| ==> r[k] == SkippedResult(cmds[i + k], batchTimeout)
  {
    seq(|cmds| - i, k requires 0 <= k < |cmds| - i => SkippedResult(cmds[i + k], batchTimeout))
  }

  /** The results of the commands from index `i` on. */
  function ResultsFrom(run: Run, i: nat): (r: seq<BatchCommandResult>)
    requires ClockCovers(run) && i <= |run.commands|
    decreases |run.commands| - i
  {
    if i == |run.commands| then []
    else if run.batchElapsed[i] > run.batchTimeout then SkippedFrom(run.commands, i, run.batchTimeout)
    else [RunCommand(run, run.commands[i], run.cmdElapsed[i])] + ResultsFrom(run, i + 1)
  }

  /** How many results carry `status`. */
  function CountStatus(rs: seq<BatchCommandResult>, status: string): (n: nat)
    ensures n <= |rs|
    decreases |rs|
  {
    if rs == [] then 0 else CountStatus(rs[..|rs| - 1], status) + (if rs[|rs| - 1].status == status then 1 else 0)
  }

  lemma CountStatusSnoc(rs: seq<BatchCommandResult>, x: BatchCommandResult, status: string)
    ensures CountStatus(rs + [x], status) == CountStatus(rs, status) + (if x.status == status then 1 else 0)
  {
    assert (rs + [x])[..|rs|] == rs;
  }

  /** The number of log.screenshot commands in the batch. */
  function ScreenshotCount(cmds: seq<BatchCommand>): (n: nat)
    ensures n <= |cmds|
    decreases |cmds|
  {
    if cmds == [] then 0 else ScreenshotCount(cmds[..|cmds| - 1]) + (if IsScreenshot(cmds[|cmds| - 1].commandType) then 1 else 0)
  }

  /** The first loop of the Skills copy: count the screenshot commands. */
  method CountScreenshots(cmds: seq<BatchCommand>) returns (count: int)
    ensures count == ScreenshotCount(cmds)
  {
    count := 0;
    var i := 0;
    while i < |cmds|
      invariant 0 <= i <= |cmds|
      invariant count == ScreenshotCount(cmds[..i])
    {
      assert cmds[..i + 1][..i] == cmds[..i];
      if IsScreenshot(cmds[i].commandType) {
        count := count + 1;
      }
      i := i + 1;
    }
    assert cmds[..i] == cmds;
  }

  /** The Run an Execute call of `batch` performs under the given clock and registry. */
  function RunOf(v: Variant, batch: BatchPendingCommand, batchElapsed: seq<int>, cmdElapsed: seq<int>, dispatch: Dispatch): Run
    requires batch.commands.Some?
  {
    Run(v, batch.batchId, batch.commands.value, batch.timeout.GetOr(DefaultBatchTimeoutMs),
        if v == Skills then ScreenshotCount(batch.commands.value) else 0, batchElapsed, cmdElapsed, dispatch)
  }

  /** The BatchResult Execute returns. */
  function Outcome(run: Run): BatchResult
    requires ClockCovers(run)
  {
    var rs := ResultsFrom(run, 0);
    BatchResult(run.batchId, CompletedBatchStatus, rs, |run.commands|, CountStatus(rs, SuccessStatus), CountStatus(rs, ErrorStatus))
  }

  /** The batch-timeout branch of Execute: every remaining command gets a SKIPPED result and counts as failed. */
  method AppendSkipped(results: seq<BatchCommandResult>, successCount: nat, failedCount: nat, cmds: seq<BatchCommand>,
                       from: nat, batchTimeout: int)
    returns (out: seq<BatchCommandResult>, failed: nat)
    requires from <= |cmds|
    requires successCount == CountStatus(results, SuccessStatus) && failedCount == CountStatus(results, ErrorStatus)
    ensures out == results + SkippedFrom(cmds, from, batchTimeout)
    ensures successCount == CountStatus(out, SuccessStatus) && failed == CountStatus(out, ErrorStatus)
  {
    out, failed := results, failedCount;
    var j := from;
    while j < |cmds|
      invariant from <= j <= |cmds|
      invariant out + SkippedFrom(cmds, j, batchTimeout) == results + SkippedFrom(cmds, from, batchTimeout)
      invariant successCount == CountStatus(out, SuccessStatus) && failed == CountStatus(out, ErrorStatus)
    {
      var skipped := SkippedResult(cmds[j], batchTimeout);
      SkippedFromCons(cmds, j, batchTimeout);
      MoveHead(out, skipped, SkippedFrom(cmds, j + 1, batchTimeout));
      CountStatusSnoc(out, skipped, SuccessStatus);
      CountStatusSnoc(out, skipped, ErrorStatus);
      out := out + [skipped];
      failed := failed + 1;
      j := j + 1;
    }
  }

  /** The SKIPPED results from j are command j's, then those from j + 1. */
  lemma SkippedFromCons(cmds: seq<BatchCommand>, j: nat, batchTimeout: int)
    requires j < |cmds|
    ensures SkippedFrom(cmds, j, batchTimeout) == [SkippedResult(cmds[j], batchTimeout)] + SkippedFrom(cmds, j + 1, batchTimeout)
  {
    var r := SkippedFrom(cmds, j, batchTimeout);
    var rest := SkippedFrom(cmds, j + 1, batchTimeout);
    assert forall k :: 0 <= k < |rest| ==> r[k + 1] == rest[k];
  }

  /** Moving one element across a concatenation keeps the sequence. */
  lemma MoveHead<T>(a: seq<T>, x: T, b: seq<T>)
    ensures (a + [x]) + b == a + ([x] + b)
  {
  }

  /** Execute: run the commands in order and count successes and failures. */
  method Execute(v: Variant, batch: BatchPendingCommand, batchElapsed: seq<int>, cmdElapsed: seq<int>, dispatch: Dispatch)
    returns (r: BatchResult)
    requires batch.commands.Some?
    requires |batchElapsed| == |batch.commands.value| && |cmdElapsed| == |batch.commands.value|
    ensures r == Outcome(RunOf(v, batch, batchElapsed, cmdElapsed, dispatch))
  {
    var cmds := batch.commands.value;
    var batchTimeout := batch.timeout.GetOr(DefaultBatchTimeoutMs);
    var screenshotCount := 0;
    if v == Skills {
      screenshotCount := CountScreenshots(cmds);
    }
    var run := Run(v, batch.batchId, cmds, batchTimeout, screenshotCount, batchElapsed, cmdElapsed, dispatch);
    var results, successCount, failedCount := RunCommands(run);
    return BatchResult(batch.batchId, CompletedBatchStatus, results, |cmds|, successCount, failedCount);
  }

  /** The main loop of Execute: each command in turn until the batch clock passes its limit. */
  method RunCommands(run: Run) returns (results: seq<BatchCommandResult>, successCount: nat, failedCount: nat)
    requires ClockCovers(run)
    ensures results == ResultsFrom(run, 0)
    ensures successCount == CountStatus(results, SuccessStatus) && failedCount == CountStatus(results, ErrorStatus)
  {
    results, successCount, failedCount := [], 0, 0;
    var i := 0;
    while i < |run.commands|
      invariant 0 <= i <= |run.commands|
      invariant ResultsFrom(run, 0) == results + ResultsFrom(run, i)
      invariant successCount == CountStatus(results, SuccessStatus) && failedCount == CountStatus(results, ErrorStatus)
    {
      if run.batchElapsed[i] > run.batchTimeout {
        results, failedCount := AppendSkipped(results, successCount, failedCount, run.commands, i, run.batchTimeout);
        return;
      }
      var cmdResult := RunCommand(run, run.commands[i], run.cmdElapsed[i]);
      CountStatusSnoc(results, cmdResult, SuccessStatus);
      CountStatusSnoc(results, cmdResult, ErrorStatus);
      if cmdResult.status == SuccessStatus {
        successCount := successCount + 1;
      } else {
        failedCount := failedCount + 1;
      }
      ResultsFromStep(run, i, results);
      results := results + [cmdResult];
      i := i + 1;
    }
    assert ResultsFrom(run, i) == [];
    assert results == ResultsFrom(run, 0);
  }

  /** A command run before the batch limit puts its own result next, after those before it. */
  lemma ResultsFromStep(run: Run, i: nat, done: seq<BatchCommandResult>)
    requires ClockCovers(run) && i < |run.commands| && run.batchElapsed[i] <= run.batchTimeout
    ensures done + ResultsFrom(run, i) == (done + [RunCommand(run, run.commands[i], run.cmdElapsed[i])]) + ResultsFrom(run, i + 1)
  {
    assert ResultsFrom(run, i) == [RunCommand(run, run.commands[i], run.cmdElapsed[i])] + ResultsFrom(run, i + 1);
  }

  /** One result per command, in input order, each naming its command. */
  lemma {:induction false} OneResultPerCommand(run: Run, i: nat)
    requires ClockCovers(run) && i <= |run.commands|
    ensures |ResultsFrom(run, i)| == |run.commands| - i
    ensures forall k :: 0 <= k < |ResultsFrom(run, i)| ==>
              ResultsFrom(run, i)[k].id == run.commands[i + k].id && ResultsFrom(run, i)[k].commandType == run.commands[i + k].commandType
    ensures forall k :: 0 <= k < |ResultsFrom(run, i)| ==>
              ResultsFrom(run, i)[k].status == SuccessStatus || ResultsFrom(run, i)[k].status == ErrorStatus
    decreases |run.commands| - i
  {
    if i < |run.commands| && run.batchElapsed[i] <= run.batchTimeout {
      OneResultPerCommand(run, i + 1);
      var rest := ResultsFrom(run, i + 1);
      var r := ResultsFrom(run, i);
      assert r == [RunCommand(run, run.commands[i], run.cmdElapsed[i])] + rest;
      forall k | 1 <= k < |r|
        ensures r[k] == rest[k - 1] && run.commands[i + k] == run.commands[(i + 1) + (k - 1)]
      {
      }
    }
  }

  /** Every result is a success or an error, so the two counts add up to the results. */
  lemma {:induction false} CountsPartition(rs: seq<BatchCommandResult>)
    requires forall k :: 0 <= k < |rs| ==> rs[k].status == SuccessStatus || rs[k].status == ErrorStatus
    ensures CountStatus(rs, SuccessStatus) + CountStatus(rs, ErrorStatus) == |rs|
    decreases |rs|
  {
    if rs != [] {
      CountsPartition(rs[..|rs| - 1]);
    }
  }

  /** The finished batch: status completed, one result per command, and successCount + failedCount == totalCommands. */
  lemma BatchTotals(run: Run)
    requires ClockCovers(run)
    ensures Outcome(run).status == CompletedBatchStatus
    ensures |Outcome(run).results| == Outcome(run).totalCommands == |run.commands|
    ensures Outcome(run).successCount + Outcome(run).failedCount == Outcome(run).totalCommands
  {
    OneResultPerCommand(run, 0);
    CountsPartition(ResultsFrom(run, 0));
  }

  /** Once the batch clock passes the limit at command i, that command and all later ones are SKIPPED. */
  lemma {:induction false} SkippedAfterBatchTimeout(run: Run, i: nat, k: nat)
    requires ClockCovers(run) && i <= k < |run.commands|
    requires run.batchElapsed[i] > run.batchTimeout
    requires forall j :: 0 <= j < i ==> run.batchElapsed[j] <= run.batchTimeout
    ensures |ResultsFrom(run, 0)| == |run.commands|
    ensures ResultsFrom(run, 0)[k] == SkippedResult(run.commands[k], run.batchTimeout)
  {
    OneResultPerCommand(run, 0);
    SkippedTail(run, 0, i, k);
  }

  lemma {:induction false} SkippedTail(run: Run, from: nat, i: nat, k: nat)
    requires ClockCovers(run) && from <= i <= k < |run.commands|
    requires run.batchElapsed[i] > run.batchTimeout
    requires forall j :: from <= j < i ==> run.batchElapsed[j] <= run.batchTimeout
    ensures k - from < |ResultsFrom(run, from)|
    ensures ResultsFrom(run, from)[k - from] == SkippedResult(run.commands[k], run.batchTimeout)
    decreases i - from
  {
    if from < i {
      var here, rest := ResultsFrom(run, from), ResultsFrom(run, from + 1);
      assert |here| == |rest| + 1 && here[1..] == rest by {
        assert run.batchElapsed[from] <= run.batchTimeout;
        ResultsFromTail(run, from);
      }
      SkippedTail(run, from + 1, i, k);
      IndexPastHead(here, rest, k - from - 1);
    } else {
      SkippedAt(run, i);
    }
  }

  /** Dropping the head shifts every index down by one. */
  lemma IndexPastHead<T>(r: seq<T>, tail: seq<T>, j: nat)
    requires |r| == |tail| + 1 && r[1..] == tail && j < |tail|
    ensures r[j + 1] == tail[j]
  {
    assert r[1..][j] == r[j + 1];
  }

  /** Past the batch limit at `i`, the results from `i` are all SKIPPED. */
  lemma SkippedAt(run: Run, i: nat)
    requires ClockCovers(run) && i < |run.commands| && run.batchElapsed[i] > run.batchTimeout
    ensures ResultsFrom(run, i) == SkippedFrom(run.commands, i, run.batchTimeout)
  {
  }

  /** Before the batch limit, the results from `i` are command i's result, then the results from i + 1. */
  lemma ResultsFromTail(run: Run, i: nat)
    requires ClockCovers(run) && i < |run.commands| && run.batchElapsed[i] <= run.batchTimeout
    ensures |ResultsFrom(run, i)| == |ResultsFrom(run, i + 1)| + 1
    ensures ResultsFrom(run, i)[1..] == ResultsFrom(run, i + 1)
  {
  }

  /** Before the batch limit is reached, a command's result is exactly what running it gives. */
  lemma {:induction false} ExecutedBeforeTimeout(run: Run, from: nat, k: nat)
    requires ClockCovers(run) && from <= k < |run.commands|
    requires forall j :: from <= j <= k ==> run.batchElapsed[j] <= run.batchTimeout
    ensures k - from < |ResultsFrom(run, from)|
    ensures ResultsFrom(run, from)[k - from] == RunCommand(run, run.commands[k], run.cmdElapsed[k])
    decreases k - from
  {
    if from < k {
      ExecutedBeforeTimeout(run, from + 1, k);
    }
  }
}
