// The frame-stepped batch session of UnityAgentSkills/AgentCommandsPlugin.cs
// (BatchExecutionSession): one Tick per editor frame runs at most one command,
// so that a log.screenshot command can wait for its file without blocking the
// editor. The session prefills one placeholder result per command (status ""),
// fills them in order, and on a batch timeout marks every placeholder left as
// SKIPPED. Time is an input of each Tick: the milliseconds since the batch
// started and since the current command started; whether the PNG file is
// readable yet is an input too.
module BatchSession {
  import opened Wrappers
  import opened Text
  import opened JsonValues
  import opened Commands
  import opened BatchParser
  import BatchExecutor
  import Screenshot

  const PlaceholderStatus := ""
  const RuntimeDetailPrefix := "异常详情: "

  /** A command slot that has been filled in. */
  predicate Finished(r: BatchExecutor.BatchCommandResult)
  {
    r.status == SuccessStatus || r.status == ErrorStatus
  }

  /** The session's fields. */
  datatype SessionState = SessionState(
    batchId: NullableString, commands: seq<BatchCommand>, batchTimeoutMs: int,
    results: seq<BatchExecutor.BatchCommandResult>, cmdIndex: nat, currentCmdTimeoutMs: int,
    waitingScreenshot: bool, status: string, successCount: nat, failedCount: nat, isDone: bool)

  /** What one Tick observes: the clock, the screenshot file, the registry and the Game view. */
  datatype TickInput = TickInput(batchElapsedMs: int, cmdElapsedMs: int, pngReadable: bool,
                                 dispatch: BatchExecutor.Dispatch, render: Json -> string,
                                 resultsDir: string, focusError: Option<string>)

  /** The placeholder result of a command that has not run. */
  function Placeholder(cmd: BatchCommand): BatchExecutor.BatchCommandResult
  {
    BatchExecutor.BatchCommandResult(cmd.id, cmd.commandType, PlaceholderStatus, None, JNull)
  }

  /** The constructor: status processing, counters zero, one placeholder per command. */
  function Start(batch: BatchPendingCommand): (st: SessionState)
    requires batch.commands.Some?
  {
    var cmds := batch.commands.value;
    SessionState(batch.batchId, cmds, batch.timeout.GetOr(BatchExecutor.DefaultBatchTimeoutMs),
                 seq(|cmds|, k requires 0 <= k < |cmds| => Placeholder(cmds[k])), 0, 0,
                 false, BatchExecutor.ProcessingBatchStatus, 0, 0, false)
  }

  /** The invariant every Tick keeps. */
  predicate Valid(st: SessionState)
  {
    && |st.results| == |st.commands| && st.cmdIndex <= |st.commands|
    && (forall k :: 0 <= k < |st.results| ==>
          st.results[k].id == st.commands[k].id && st.results[k].commandType == st.commands[k].commandType)
    && (forall k :: 0 <= k < st.cmdIndex ==> Finished(st.results[k]))
    && (!st.isDone ==> forall k :: st.cmdIndex <= k < |st.results| ==> st.results[k].status == PlaceholderStatus)
    && (st.isDone ==> forall k :: 0 <= k < |st.results| ==> Finished(st.results[k]))
    && st.successCount == BatchExecutor.CountStatus(st.results, SuccessStatus)
    && st.failedCount == BatchExecutor.CountStatus(st.results, ErrorStatus)
    && (st.isDone <==> st.status == BatchExecutor.CompletedBatchStatus)
    && (!st.isDone ==> st.status == BatchExecutor.ProcessingBatchStatus)
    && (st.waitingScreenshot ==> !st.isDone && st.cmdIndex < |st.commands|
                                 && st.currentCmdTimeoutMs <= Screenshot.ScreenshotReadyTimeoutMs)
  }

  /** A placeholder becomes SKIPPED: an error with the batch limit, and no result payload. */
  function SkipSlot(r: BatchExecutor.BatchCommandResult, err: CommandError): (s: BatchExecutor.BatchCommandResult)
    ensures s.id == r.id && s.commandType == r.commandType && s.status == ErrorStatus && s.result == JNull
    ensures s.error == Some(err)
  {
    r.(status := ErrorStatus, error := Some(err), result := JNull)
  }

  /** The results after marking the placeholders at positions from..to-1 as SKIPPED. */
  function MarkSkipped(rs: seq<BatchExecutor.BatchCommandResult>, from: nat, to: nat, err: CommandError)
    : (r: seq<BatchExecutor.BatchCommandResult>)
    ensures |r| == |rs|
    ensures forall k :: 0 <= k < |rs| ==>
              r[k] == if from <= k < to && rs[k].status == PlaceholderStatus then SkipSlot(rs[k], err) else rs[k]
  {
    seq(|rs|, k requires 0 <= k < |rs| =>
      if from <= k < to && rs[k].status == PlaceholderStatus then SkipSlot(rs[k], err) else rs[k])
  }

  /** FinishBatchAsTimeout, which ends in FinishBatchAsCompleted. */
  function FinishAsTimeout(st: SessionState): SessionState
    requires st.cmdIndex <= |st.results|
  {
    st.(results := MarkSkipped(st.results, st.cmdIndex, |st.results|, CreateSkippedError(st.batchTimeoutMs)),
        failedCount := st.failedCount + BatchExecutor.CountStatus(st.results[st.cmdIndex..], PlaceholderStatus),
        waitingScreenshot := false, status := BatchExecutor.CompletedBatchStatus, isDone := true)
  }

  /** FinishBatchAsCompleted. */
  function FinishAsCompleted(st: SessionState): SessionState
  {
    st.(status := BatchExecutor.CompletedBatchStatus, isDone := true)
  }

  /** The session's catch block: timeout first, then INVALID_FIELDS, UNKNOWN_TYPE, RUNTIME_ERROR. */
  function MapException(ex: Exception, cmdType: NullableString, elapsedMs: int, cmdTimeoutMs: int): (e: CommandError)
    ensures elapsedMs > cmdTimeoutMs ==> e == CreateTimeoutError(elapsedMs, cmdTimeoutMs)
    ensures elapsedMs <= cmdTimeoutMs && ex.kind == NotSupportedException ==> e == CreateUnknownCommandError(cmdType, Some(ex.message))
    ensures elapsedMs <= cmdTimeoutMs && ex.kind == ArgumentException && StartsWith(ex.message, InvalidFieldsCode + ":") ==>
              e == CreateInvalidFieldsError(Some(TrimWhitespace(ex.message[|InvalidFieldsCode| + 1..])))
    ensures elapsedMs <= cmdTimeoutMs && ex.kind == ArgumentException && !StartsWith(ex.message, InvalidFieldsCode + ":") ==>
              e == CreateRuntimeError(Some(RuntimeDetailPrefix + ex.message))
    ensures elapsedMs <= cmdTimeoutMs && ex.kind !in {ArgumentException, NotSupportedException} ==>
              e == CreateRuntimeError(Some(RuntimeDetailPrefix + ex.message))
  {
    if elapsedMs > cmdTimeoutMs then CreateTimeoutError(elapsedMs, cmdTimeoutMs)
    else if ex.kind == ArgumentException && StartsWith(ex.message, InvalidFieldsCode + ":") then
      CreateInvalidFieldsError(Some(TrimWhitespace(ex.message[|InvalidFieldsCode| + 1..])))
    else if ex.kind == NotSupportedException then CreateUnknownCommandError(cmdType, Some(ex.message))
    else CreateRuntimeError(Some(RuntimeDetailPrefix + ex.message))
  }

  /** An "INVALID_FIELDS: detail" ArgumentException within the timeout reports exactly that detail. */
  lemma InvalidFieldsMapped(detail: string, cmdType: NullableString, elapsedMs: int, cmdTimeoutMs: int)
    requires elapsedMs <= cmdTimeoutMs
    requires detail != [] && !IsBlank(detail[..1]) && !IsBlank(detail[|detail| - 1..])
    ensures MapException(Exception(ArgumentException, InvalidFieldsCode + ": " + detail), cmdType, elapsedMs, cmdTimeoutMs)
            == CreateInvalidFieldsError(Some(detail))
  {
    var m := InvalidFieldsCode + ": " + detail;
    assert m[..|InvalidFieldsCode + ":"|] == InvalidFieldsCode + ":";
    assert m[|InvalidFieldsCode| + 1..] == " " + detail;
    assert (" " + detail)[..1] == " ";
    assert (" " + detail)[1..] == detail;
    assert TrimWhitespace(" " + detail) == TrimWhitespace(detail);
    assert TrimWhitespace(detail) == detail;
  }

  /** The current command finished: its slot filled, the matching counter raised, the index moved on. */
  function Complete(st: SessionState, filled: BatchExecutor.BatchCommandResult): SessionState
    requires st.cmdIndex < |st.results|
  {
    st.(results := st.results[st.cmdIndex := filled], cmdIndex := st.cmdIndex + 1, waitingScreenshot := false,
        successCount := if filled.status == SuccessStatus then st.successCount + 1 else st.successCount,
        failedCount := if filled.status == ErrorStatus then st.failedCount + 1 else st.failedCount)
  }

  /** One poll while waiting for the screenshot file. */
  function PollScreenshot(st: SessionState, input: TickInput): SessionState
    requires st.cmdIndex < |st.results|
  {
    var slot := st.results[st.cmdIndex];
    if input.pngReadable then Complete(st, slot.(status := SuccessStatus))
    else if input.cmdElapsedMs > st.currentCmdTimeoutMs then
      Complete(st, slot.(status := ErrorStatus, error := Some(CreateTimeoutError(input.cmdElapsedMs, st.currentCmdTimeoutMs))))
    else st
  }

  /** What starting the current command gives: a screenshot starts a capture, any other command is dispatched. */
  function CommandOutcome(st: SessionState, input: TickInput): Result<Json, Exception>
    requires st.cmdIndex < |st.commands|
  {
    var cmd := st.commands[st.cmdIndex];
    if BatchExecutor.IsScreenshot(cmd.commandType) then
      Screenshot.StartCapture(BatchExecutor.InjectScreenshotContext(cmd.params, st.batchId, cmd.id, BatchExecutor.ScreenshotCount(st.commands)),
                              input.resultsDir, input.render, input.focusError)
    else input.dispatch(cmd.commandType, cmd.params)
  }

  /** The current command's outcome recorded: a started capture waits, anything else fills the slot. */
  function Settle(st: SessionState, outcome: Result<Json, Exception>, elapsedMs: int): SessionState
    requires st.cmdIndex < |st.results| && |st.results| == |st.commands|
  {
    var cmd := st.commands[st.cmdIndex];
    var slot := st.results[st.cmdIndex];
    var cmdTimeout := cmd.timeout.GetOr(st.batchTimeoutMs);
    var st1 := st.(currentCmdTimeoutMs := cmdTimeout);
    match outcome
    case Failure(ex) =>
      Complete(st1, slot.(status := ErrorStatus, error := Some(MapException(ex, cmd.commandType, elapsedMs, cmdTimeout))))
    case Success(data) =>
      if BatchExecutor.IsScreenshot(cmd.commandType) then
        st.(results := st.results[st.cmdIndex := slot.(status := PlaceholderStatus, result := data)],
            currentCmdTimeoutMs := if cmdTimeout < Screenshot.ScreenshotReadyTimeoutMs then cmdTimeout else Screenshot.ScreenshotReadyTimeoutMs,
            waitingScreenshot := true)
      else if elapsedMs > cmdTimeout then
        Complete(st1, slot.(status := ErrorStatus, error := Some(CreateTimeoutError(elapsedMs, cmdTimeout))))
      else Complete(st1, slot.(status := SuccessStatus, result := data))
  }

  /** One Tick: batch timeout first, then completion, then the screenshot wait or the next command. */
  function Step(st: SessionState, input: TickInput): SessionState
    requires Valid(st)
  {
    if st.isDone then st
    else if input.batchElapsedMs > st.batchTimeoutMs then FinishAsTimeout(st)
    else if st.cmdIndex >= |st.commands| then FinishAsCompleted(st)
    else if st.waitingScreenshot then PollScreenshot(st, input)
    else Settle(st, CommandOutcome(st, input), input.cmdElapsedMs)
  }

  /** The new session is valid, has run nothing and holds one placeholder per command. */
  lemma StartValid(batch: BatchPendingCommand)
    requires batch.commands.Some?
    ensures var st := Start(batch);
            && Valid(st) && st.cmdIndex == 0 && st.successCount == 0 && st.failedCount == 0
            && |st.results| == |batch.commands.value|
            && (forall k :: 0 <= k < |st.results| ==> st.results[k].status == PlaceholderStatus)
  {
    var st := Start(batch);
    CountStatusNone(st.results, SuccessStatus);
    CountStatusNone(st.results, ErrorStatus);
  }

  lemma {:induction false} CountStatusNone(rs: seq<BatchExecutor.BatchCommandResult>, status: string)
    requires forall k :: 0 <= k < |rs| ==> rs[k].status != status
    ensures BatchExecutor.CountStatus(rs, status) == 0
    decreases |rs|
  {
    if rs != [] {
      CountStatusNone(rs[..|rs| - 1], status);
    }
  }

  /** Replacing one slot changes each count by what left and what came in. */
  lemma {:induction false} CountStatusUpdate(rs: seq<BatchExecutor.BatchCommandResult>, i: nat, x: BatchExecutor.BatchCommandResult, status: string)
    requires i < |rs|
    ensures BatchExecutor.CountStatus(rs[i := x], status) + (if rs[i].status == status then 1 else 0)
            == BatchExecutor.CountStatus(rs, status) + (if x.status == status then 1 else 0)
    decreases |rs|
  {
    var n := |rs|;
    if i < n - 1 {
      assert rs[i := x][..n - 1] == rs[..n - 1][i := x];
      CountStatusUpdate(rs[..n - 1], i, x, status);
    } else {
      assert rs[i := x][..n - 1] == rs[..n - 1];
    }
  }

  /** Filling the current slot with a finished result keeps the invariant. */
  lemma CompleteValid(st: SessionState, filled: BatchExecutor.BatchCommandResult)
    requires Valid(st) && !st.isDone && st.cmdIndex < |st.results|
    requires Finished(filled)
    requires filled.id == st.commands[st.cmdIndex].id && filled.commandType == st.commands[st.cmdIndex].commandType
    ensures Valid(Complete(st, filled))
  {
    CountStatusUpdate(st.results, st.cmdIndex, filled, SuccessStatus);
    CountStatusUpdate(st.results, st.cmdIndex, filled, ErrorStatus);
  }

  /** `m` is `rs` with every placeholder from position `lo` on marked SKIPPED. */
  predicate SkippedFrom(rs: seq<BatchExecutor.BatchCommandResult>, m: seq<BatchExecutor.BatchCommandResult>, lo: nat, err: CommandError)
  {
    && |m| == |rs|
    && forall k :: 0 <= k < |rs| ==> m[k] == if lo <= k && rs[k].status == PlaceholderStatus then SkipSlot(rs[k], err) else rs[k]
  }

  /** Dropping the last slot of both sequences keeps the relation. */
  lemma SkippedFromInit(rs: seq<BatchExecutor.BatchCommandResult>, m: seq<BatchExecutor.BatchCommandResult>, lo: nat, err: CommandError)
    requires lo < |rs| && SkippedFrom(rs, m, lo, err)
    ensures SkippedFrom(rs[..|rs| - 1], m[..|rs| - 1], lo, err)
    ensures m[|rs| - 1] == if rs[|rs| - 1].status == PlaceholderStatus then SkipSlot(rs[|rs| - 1], err) else rs[|rs| - 1]
  {
    var n := |rs|;
    var rs', m' := rs[..n - 1], m[..n - 1];
    forall k | 0 <= k < n - 1
      ensures m'[k] == if lo <= k && rs'[k].status == PlaceholderStatus then SkipSlot(rs'[k], err) else rs'[k]
    {
      assert m'[k] == m[k] && rs'[k] == rs[k];
    }
  }

  /** The SKIPPED marking leaves the number of successes alone. */
  lemma {:induction false} SkippedKeepsSuccesses(rs: seq<BatchExecutor.BatchCommandResult>, m: seq<BatchExecutor.BatchCommandResult>, lo: nat, err: CommandError)
    requires lo <= |rs| && SkippedFrom(rs, m, lo, err)
    ensures BatchExecutor.CountStatus(m, SuccessStatus) == BatchExecutor.CountStatus(rs, SuccessStatus)
    decreases |rs|
  {
    if lo == |rs| {
      assert m == rs;
    } else {
      SkippedFromInit(rs, m, lo, err);
      SkippedKeepsSuccesses(rs[..|rs| - 1], m[..|rs| - 1], lo, err);
    }
  }

  /** Marking a tail of placeholders SKIPPED adds one failure per slot marked. */
  lemma {:induction false} SkippedCountsFailures(rs: seq<BatchExecutor.BatchCommandResult>, m: seq<BatchExecutor.BatchCommandResult>, lo: nat, err: CommandError)
    requires lo <= |rs| && SkippedFrom(rs, m, lo, err)
    requires forall k :: lo <= k < |rs| ==> rs[k].status == PlaceholderStatus
    ensures BatchExecutor.CountStatus(m, ErrorStatus) == BatchExecutor.CountStatus(rs, ErrorStatus) + (|rs| - lo)
    decreases |rs|
  {
    if lo == |rs| {
      assert m == rs;
    } else {
      SkippedFromInit(rs, m, lo, err);
      SkippedCountsFailures(rs[..|rs| - 1], m[..|rs| - 1], lo, err);
    }
  }

  /** A run of slots that all have one status counts them all. */
  lemma {:induction false} CountStatusAll(rs: seq<BatchExecutor.BatchCommandResult>, status: string)
    requires forall k :: 0 <= k < |rs| ==> rs[k].status == status
    ensures BatchExecutor.CountStatus(rs, status) == |rs|
    decreases |rs|
  {
    if rs != [] {
      CountStatusAll(rs[..|rs| - 1], status);
    }
  }

  /** FinishBatchAsTimeout ends the session with every unfinished command SKIPPED and counted as failed. */
  lemma FinishAsTimeoutValid(st: SessionState)
    requires Valid(st) && !st.isDone
    ensures var st' := FinishAsTimeout(st);
            && Valid(st') && st'.isDone && st'.status == BatchExecutor.CompletedBatchStatus
            && st'.cmdIndex == st.cmdIndex
            && (forall k :: 0 <= k < st.cmdIndex ==> st'.results[k] == st.results[k])
            && (forall k :: st.cmdIndex <= k < |st.results| ==> st'.results[k] == SkipSlot(st.results[k], CreateSkippedError(st.batchTimeoutMs)))
  {
    FinishAsTimeoutCounts(st);
  }

  /** The counters after FinishBatchAsTimeout still count the successes and failures among the results. */
  lemma FinishAsTimeoutCounts(st: SessionState)
    requires Valid(st) && !st.isDone
    ensures var st' := FinishAsTimeout(st);
            && st'.successCount == BatchExecutor.CountStatus(st'.results, SuccessStatus)
            && st'.failedCount == BatchExecutor.CountStatus(st'.results, ErrorStatus)
  {
    var err := CreateSkippedError(st.batchTimeoutMs);
    var m := MarkSkipped(st.results, st.cmdIndex, |st.results|, err);
    SkippedKeepsSuccesses(st.results, m, st.cmdIndex, err);
    SkippedCountsFailures(st.results, m, st.cmdIndex, err);
    CountStatusAll(st.results[st.cmdIndex..], PlaceholderStatus);
  }

  /** A batch timeout is checked first: it ends the session whatever command was running. */
  lemma TimeoutSkipsRest(st: SessionState, input: TickInput)
    requires Valid(st) && !st.isDone && input.batchElapsedMs > st.batchTimeoutMs
    ensures var st' := Step(st, input);
            && Valid(st') && st'.isDone && st'.status == BatchExecutor.CompletedBatchStatus
            && (forall k :: 0 <= k < st.cmdIndex ==> st'.results[k] == st.results[k])
            && (forall k :: st.cmdIndex <= k < |st.results| ==> st'.results[k] == SkipSlot(st.results[k], CreateSkippedError(st.batchTimeoutMs)))
  {
    FinishAsTimeoutValid(st);
  }

  /** Every Tick keeps the invariant, moves the index by at most one and leaves finished slots alone. */
  lemma TickValid(st: SessionState, input: TickInput)
    requires Valid(st)
    ensures var st' := Step(st, input);
            && Valid(st')
            && (st'.cmdIndex == st.cmdIndex || st'.cmdIndex == st.cmdIndex + 1)
            && (forall k :: 0 <= k < st.cmdIndex ==> st'.results[k] == st.results[k])
            && (st.isDone ==> st' == st)
  {
    if st.isDone {
    } else if input.batchElapsedMs > st.batchTimeoutMs {
      TimeoutSkipsRest(st, input);
    } else if st.cmdIndex >= |st.commands| {
    } else if st.waitingScreenshot {
      var slot := st.results[st.cmdIndex];
      if input.pngReadable {
        CompleteValid(st, slot.(status := SuccessStatus));
      } else if input.cmdElapsedMs > st.currentCmdTimeoutMs {
        CompleteValid(st, slot.(status := ErrorStatus, error := Some(CreateTimeoutError(input.cmdElapsedMs, st.currentCmdTimeoutMs))));
      }
    } else {
      SettleValid(st, CommandOutcome(st, input), input.cmdElapsedMs);
    }
  }

  /** Recording any outcome of the current command keeps the invariant and moves the index by at most one. */
  lemma SettleValid(st: SessionState, outcome: Result<Json, Exception>, elapsedMs: int)
    requires Valid(st) && !st.isDone && !st.waitingScreenshot && st.cmdIndex < |st.commands|
    ensures var st' := Settle(st, outcome, elapsedMs);
            && Valid(st')
            && (st'.cmdIndex == st.cmdIndex || st'.cmdIndex == st.cmdIndex + 1)
            && (forall k :: 0 <= k < st.cmdIndex ==> st'.results[k] == st.results[k])
  {
    var cmd := st.commands[st.cmdIndex];
    var slot := st.results[st.cmdIndex];
    var cmdTimeout := cmd.timeout.GetOr(st.batchTimeoutMs);
    var st1 := st.(currentCmdTimeoutMs := cmdTimeout);
    match outcome
    case Failure(ex) =>
      CompleteValid(st1, slot.(status := ErrorStatus, error := Some(MapException(ex, cmd.commandType, elapsedMs, cmdTimeout))));
    case Success(data) =>
      if BatchExecutor.IsScreenshot(cmd.commandType) {
        var placeholder := slot.(status := PlaceholderStatus, result := data);
        CountStatusUpdate(st.results, st.cmdIndex, placeholder, SuccessStatus);
        CountStatusUpdate(st.results, st.cmdIndex, placeholder, ErrorStatus);
      } else if elapsedMs > cmdTimeout {
        CompleteValid(st1, slot.(status := ErrorStatus, error := Some(CreateTimeoutError(elapsedMs, cmdTimeout))));
      } else {
        CompleteValid(st1, slot.(status := SuccessStatus, result := data));
      }
  }

  /** A finished session has no placeholder left, and its two counters add up to the command count. */
  lemma {:induction false} DoneHasNoPlaceholders(st: SessionState)
    requires Valid(st) && st.isDone
    ensures forall k :: 0 <= k < |st.results| ==> st.results[k].status != PlaceholderStatus
    ensures st.successCount + st.failedCount == |st.commands|
  {
    BatchExecutor.CountsPartition(st.results);
  }

  /** A screenshot command waits at most five seconds, whatever its own timeout. */
  lemma ScreenshotWaitCapped(st: SessionState, input: TickInput)
    requires Valid(st)
    ensures Step(st, input).waitingScreenshot ==> Step(st, input).currentCmdTimeoutMs <= Screenshot.ScreenshotReadyTimeoutMs
    ensures Step(st, input).waitingScreenshot && !st.waitingScreenshot ==>
              var cmd := st.commands[st.cmdIndex];
              BatchExecutor.IsScreenshot(cmd.commandType)
              && Step(st, input).currentCmdTimeoutMs
                 == if cmd.timeout.GetOr(st.batchTimeoutMs) < Screenshot.ScreenshotReadyTimeoutMs then cmd.timeout.GetOr(st.batchTimeoutMs)
                    else Screenshot.ScreenshotReadyTimeoutMs
  {
    TickValid(st, input);
  }

  /** Extending the marked range by one position changes only that position. */
  lemma MarkSkippedStep(rs: seq<BatchExecutor.BatchCommandResult>, lo: nat, i: nat, err: CommandError)
    requires lo <= i < |rs|
    ensures MarkSkipped(rs, lo, i, err)[i] == rs[i]
    ensures MarkSkipped(rs, lo, i + 1, err)
            == MarkSkipped(rs, lo, i, err)[i := if rs[i].status == PlaceholderStatus then SkipSlot(rs[i], err) else rs[i]]
  {
    var next := MarkSkipped(rs, lo, i + 1, err);
    var x := if rs[i].status == PlaceholderStatus then SkipSlot(rs[i], err) else rs[i];
    var upd := MarkSkipped(rs, lo, i, err)[i := x];
    forall k | 0 <= k < |rs|
      ensures next[k] == upd[k]
    {
    }
  }

  /** Counting over a slice that grows by one position. */
  lemma CountSlice(rs: seq<BatchExecutor.BatchCommandResult>, lo: nat, i: nat, status: string)
    requires lo <= i < |rs|
    ensures BatchExecutor.CountStatus(rs[lo..i + 1], status)
            == BatchExecutor.CountStatus(rs[lo..i], status) + (if rs[i].status == status then 1 else 0)
  {
    assert rs[lo..i + 1] == rs[lo..i] + [rs[i]];
    BatchExecutor.CountStatusSnoc(rs[lo..i], rs[i], status);
  }

  /** The loop of FinishBatchAsTimeout: each placeholder from `from` on becomes SKIPPED and is counted. */
  method SkipRemaining(rs: seq<BatchExecutor.BatchCommandResult>, from: nat, err: CommandError)
    returns (out: seq<BatchExecutor.BatchCommandResult>, skipped: nat)
    requires from <= |rs|
    ensures out == MarkSkipped(rs, from, |rs|, err)
    ensures skipped == BatchExecutor.CountStatus(rs[from..], PlaceholderStatus)
  {
    out, skipped := rs, 0;
    var i := from;
    while i < |rs|
      invariant from <= i <= |rs|
      invariant out == MarkSkipped(rs, from, i, err)
      invariant skipped == BatchExecutor.CountStatus(rs[from..i], PlaceholderStatus)
    {
      MarkSkippedStep(rs, from, i, err);
      CountSlice(rs, from, i, PlaceholderStatus);
      if rs[i].status == PlaceholderStatus {
        out := out[i := SkipSlot(rs[i], err)];
        skipped := skipped + 1;
      }
      i := i + 1;
    }
    assert rs[from..i] == rs[from..];
  }

  /** BatchExecutionSession: the session object the plugin advances once per editor frame. */
  class Session {
    const batchId: NullableString
    const commands: seq<BatchCommand>
    const batchTimeoutMs: int
    var results: seq<BatchExecutor.BatchCommandResult>
    var cmdIndex: nat
    var currentCmdTimeoutMs: int
    var waitingScreenshot: bool
    var status: string
    var successCount: nat
    var failedCount: nat
    var isDone: bool

    function State(): SessionState
      reads this
    {
      SessionState(batchId, commands, batchTimeoutMs, results, cmdIndex, currentCmdTimeoutMs,
                   waitingScreenshot, status, successCount, failedCount, isDone)
    }

    /** The constructor: the batch timeout defaults to the configured one, and every result is a placeholder. */
    constructor (batch: BatchPendingCommand)
      requires batch.commands.Some?
      ensures State() == Start(batch)
    {
      var cmds := batch.commands.value;
      batchId := batch.batchId;
      commands := cmds;
      batchTimeoutMs := batch.timeout.GetOr(BatchExecutor.DefaultBatchTimeoutMs);
      var prefilled := [];
      var i := 0;
      while i < |cmds|
        invariant 0 <= i <= |cmds| && |prefilled| == i
        invariant forall k :: 0 <= k < i ==> prefilled[k] == Placeholder(cmds[k])
      {
        prefilled := prefilled + [Placeholder(cmds[i])];
        i := i + 1;
      }
      results := prefilled;
      cmdIndex, currentCmdTimeoutMs, waitingScreenshot := 0, 0, false;
      status := BatchExecutor.ProcessingBatchStatus;
      successCount, failedCount, isDone := 0, 0, false;
    }

    /** FinishBatchAsTimeout: SKIPPED for every placeholder from the current command on. */
    method FinishBatchAsTimeout()
      requires cmdIndex <= |results|
      modifies this
      ensures State() == FinishAsTimeout(old(State()))
    {
      var skipped;
      results, skipped := SkipRemaining(results, cmdIndex, CreateSkippedError(batchTimeoutMs));
      failedCount := failedCount + skipped;
      waitingScreenshot := false;
      status := BatchExecutor.CompletedBatchStatus;
      isDone := true;
    }

    /** Tick: one step of the batch, as Step describes. */
    method Tick(input: TickInput)
      requires Valid(State())
      modifies this
      ensures State() == Step(old(State()), input)
    {
      if isDone {
        return;
      }
      if input.batchElapsedMs > batchTimeoutMs {
        FinishBatchAsTimeout();
        return;
      }
      if cmdIndex >= |commands| {
        status := BatchExecutor.CompletedBatchStatus;
        isDone := true;
        return;
      }
      if waitingScreenshot {
        PollOnce(input);
        return;
      }
      var cmd := commands[cmdIndex];
      var outcome: Result<Json, Exception>;
      if BatchExecutor.IsScreenshot(cmd.commandType) {
        var effective := BatchExecutor.InjectScreenshotContext(cmd.params, batchId, cmd.id, BatchExecutor.ScreenshotCount(commands));
        outcome := Screenshot.StartCapture(effective, input.resultsDir, input.render, input.focusError);
      } else {
        outcome := input.dispatch(cmd.commandType, cmd.params);
      }
      Record(outcome, input.cmdElapsedMs);
    }

    /** The wait for the screenshot file: done when it is readable, a TIMEOUT once the (capped) limit passes. */
    method PollOnce(input: TickInput)
      requires cmdIndex < |results|
      modifies this
      ensures State() == PollScreenshot(old(State()), input)
    {
      var slot := results[cmdIndex];
      if input.pngReadable {
        results := results[cmdIndex := slot.(status := SuccessStatus)];
        successCount := successCount + 1;
        waitingScreenshot := false;
        cmdIndex := cmdIndex + 1;
      } else if input.cmdElapsedMs > currentCmdTimeoutMs {
        results := results[cmdIndex := slot.(status := ErrorStatus, error := Some(CreateTimeoutError(input.cmdElapsedMs, currentCmdTimeoutMs)))];
        failedCount := failedCount + 1;
        waitingScreenshot := false;
        cmdIndex := cmdIndex + 1;
      }
    }

    /** The rest of the Tick once the current command has run or thrown. */
    method Record(outcome: Result<Json, Exception>, elapsedMs: int)
      requires cmdIndex < |results| && |results| == |commands|
      modifies this
      ensures State() == Settle(old(State()), outcome, elapsedMs)
    {
      var cmd := commands[cmdIndex];
      var slot := results[cmdIndex];
      currentCmdTimeoutMs := cmd.timeout.GetOr(batchTimeoutMs);
      if outcome.Success? && BatchExecutor.IsScreenshot(cmd.commandType) {
        results := results[cmdIndex := slot.(status := PlaceholderStatus, result := outcome.value)];
        if Screenshot.ScreenshotReadyTimeoutMs < currentCmdTimeoutMs {
          currentCmdTimeoutMs := Screenshot.ScreenshotReadyTimeoutMs;
        }
        waitingScreenshot := true;
        return;
      }
      var filled: BatchExecutor.BatchCommandResult;
      if outcome.Failure? {
        filled := slot.(status := ErrorStatus, error := Some(MapException(outcome.error, cmd.commandType, elapsedMs, currentCmdTimeoutMs)));
        failedCount := failedCount + 1;
      } else if elapsedMs > currentCmdTimeoutMs {
        filled := slot.(status := ErrorStatus, error := Some(CreateTimeoutError(elapsedMs, currentCmdTimeoutMs)));
        failedCount := failedCount + 1;
      } else {
        filled := slot.(status := SuccessStatus, result := outcome.value);
        successCount := successCount + 1;
      }
      results := results[cmdIndex := filled];
      cmdIndex := cmdIndex + 1;
      waitingScreenshot := false;
    }
  }
}
