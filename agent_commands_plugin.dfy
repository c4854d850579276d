// The earlier editor-side plugin (UnitySkills/AgentCommands/AgentCommandsPlugin.cs): the
// same pending queue as the UnityAgentSkills plugin, but a parsed batch is executed to the
// end within the update that dequeued it. Inside `namespace AgentCommands` the name
// BatchCommandExecutor binds to AgentCommands.BatchCommandExecutor before the imported
// AgentCommands.Core one, so the batch runs on the oldest executor copy (AgentLegacy).
//
// The editor clock, the directory listing, the parse result of the dequeued file, the
// executor's clock readings and the command registry are inputs of each update.
module AgentCommandsPlugin {
  import opened Wrappers
  import opened Text
  import opened Commands
  import BatchParser
  import BatchExecutor
  import opened PendingQueue

  /** The plugin's static fields. */
  datatype PluginState = PluginState(q: QueueState, nextRescanTime: real)

  /**
   * What one editor update observes: the editor time, the pending directory, what
   * ParseAndValidate returns for the dequeued file, and what the executor observes.
   */
  datatype UpdateInput = UpdateInput(now: real, dirExists: bool, listing: seq<PendingProbe>,
                                     parsed: Result<BatchParser.BatchPendingCommand, Exception>,
                                     batchElapsed: seq<int>, cmdElapsed: seq<int>, dispatch: BatchExecutor.Dispatch)

  /** A parsed batch passed validation, and the executor's clock has one reading per command. */
  predicate WellFormed(input: UpdateInput)
  {
    input.parsed.Success? ==>
      && BatchParser.Validate(Some(input.parsed.value)).None?
      && |input.batchElapsed| == |input.parsed.value.commands.value|
      && |input.cmdElapsed| == |input.parsed.value.commands.value|
  }

  /** Initialize: a first scan of the pending directory, the next one an interval away. */
  function Initial(now: real, dirExists: bool, listing: seq<PendingProbe>): PluginState
  {
    PluginState(EnqueueAll(QueueState([], {}, false), dirExists, listing), now + PendingRescanIntervalSeconds)
  }

  /** The periodic rescan of OnEditorUpdate. */
  function Rescan(ps: PluginState, now: real, dirExists: bool, listing: seq<PendingProbe>): PluginState
  {
    if now >= ps.nextRescanTime then
      PluginState(EnqueueAll(ps.q, dirExists, listing), now + PendingRescanIntervalSeconds)
    else ps
  }

  /**
   * ProcessPendingFile for a dequeued item: a parse failure is retried or reported, a parsed
   * batch runs to the end; the `finally` ends processing on every path.
   */
  function Handle(q: QueueState, item: PendingFileItem, input: UpdateInput): (r: (QueueState, Handling))
    requires WellFormed(input)
    ensures !r.0.isProcessing
    ensures r.1.id == item.id
    ensures r.1.Executed? <==> input.parsed.Success?
    ensures input.parsed.Failure? ==>
              (r.1.Retried? <==> input.parsed.error.kind == ArgumentException && ShouldRetryRead(item, ReadRetryDelaysMs))
    ensures r.1.Retried? ==> r.0 == Rescheduled(q, item, input.now, ReadRetryDelaysMs)
    ensures !r.1.Retried? ==> r.0 == q.(isProcessing := false)
    ensures r.1.ErrorArchived? ==> r.1.message == input.parsed.error.message
  {
    match input.parsed
    case Failure(ex) =>
      (match OnParseFailure(item, ex, ReadRetryDelaysMs)
       case Retry => (Rescheduled(q, item, input.now, ReadRetryDelaysMs), Retried(item.id))
       case Archive(code, message, detail) => (q.(isProcessing := false), ErrorArchived(item.id, code, message, detail)))
    case Success(batch) =>
      var run := BatchExecutor.RunOf(BatchExecutor.AgentLegacy, batch, input.batchElapsed, input.cmdElapsed, input.dispatch);
      (q.(isProcessing := false), Executed(item.id, BatchExecutor.Outcome(run)))
  }

  /** OnEditorUpdate: the rescan, then at most one file, handled to the end. */
  function Update(ps: PluginState, input: UpdateInput): (r: (PluginState, Option<Handling>))
    requires WellFormed(input)
    ensures var taken := Dequeue(Rescan(ps, input.now, input.dirExists, input.listing).q, input.now).0;
            && (r.1.Some? <==> taken.Some?)
            && (r.1.Some? ==> r.1.value.id == taken.value.id && !r.0.q.isProcessing)
    ensures r.1.None? ==> r.0 == Rescan(ps, input.now, input.dirExists, input.listing)
  {
    var ps1 := Rescan(ps, input.now, input.dirExists, input.listing);
    var (item, q2) := Dequeue(ps1.q, input.now);
    if item.None? then (ps1, None)
    else
      var (q3, h) := Handle(q2, item.value, input);
      (ps1.(q := q3), Some(h))
  }

  /** The plugin starts idle, with its dedup set matching a sorted queue. */
  lemma InitialValid(now: real, dirExists: bool, listing: seq<PendingProbe>)
    ensures var ps := Initial(now, dirExists, listing);
            QueueInvariant(ps.q) && !ps.q.isProcessing && Sorted(ps.q.queue)
  {
    var empty := QueueState([], {}, false);
    assert QueueInvariant(empty);
    EnqueueAllEffect(empty, dirExists, listing);
  }

  /**
   * Every update keeps the queue invariant and ends idle, so the next update may take a
   * file again; a taken file is the head of the rescanned queue.
   */
  lemma UpdateKeepsIdle(ps: PluginState, input: UpdateInput)
    requires QueueInvariant(ps.q) && !ps.q.isProcessing && WellFormed(input)
    ensures var (ps', h) := Update(ps, input);
            && QueueInvariant(ps'.q) && !ps'.q.isProcessing
            && (h.Some? ==> h.value.id == Rescan(ps, input.now, input.dirExists, input.listing).q.queue[0].id)
  {
    var ps1 := Rescan(ps, input.now, input.dirExists, input.listing);
    if input.now >= ps.nextRescanTime {
      EnqueueAllEffect(ps.q, input.dirExists, input.listing);
    }
    DequeueEffect(ps1.q, input.now);
    var (item, q2) := Dequeue(ps1.q, input.now);
    if item.Some? && input.parsed.Failure? && OnParseFailure(item.value, input.parsed.error, ReadRetryDelaysMs).Retry? {
      RescheduleEffect(q2, item.value, input.now, ReadRetryDelaysMs);
    }
  }

  /** An update takes a file exactly when the rescanned queue has one whose retry time has come. */
  lemma Progress(ps: PluginState, input: UpdateInput)
    requires QueueInvariant(ps.q) && !ps.q.isProcessing && WellFormed(input)
    ensures var ps1 := Rescan(ps, input.now, input.dirExists, input.listing);
            Update(ps, input).1.Some? <==> ps1.q.queue != [] && input.now >= ps1.q.queue[0].nextAttemptEditorTime
  {
    if input.now >= ps.nextRescanTime {
      EnqueueAllEffect(ps.q, input.dirExists, input.listing);
    }
  }

  /** An executed batch reports one completed result per command, each a success or an error. */
  lemma ExecutedBatchComplete(ps: PluginState, input: UpdateInput)
    requires WellFormed(input)
    requires Update(ps, input).1.Some? && Update(ps, input).1.value.Executed?
    ensures var r := Update(ps, input).1.value.result;
            && input.parsed.Success?
            && r.batchId == input.parsed.value.batchId
            && r.status == BatchExecutor.CompletedBatchStatus
            && |r.results| == r.totalCommands == |input.parsed.value.commands.value|
            && r.successCount + r.failedCount == r.totalCommands
  {
    var run := BatchExecutor.RunOf(BatchExecutor.AgentLegacy, input.parsed.value, input.batchElapsed, input.cmdElapsed, input.dispatch);
    BatchExecutor.BatchTotals(run);
  }

  class Plugin {
    var queue: seq<PendingFileItem>
    var known: set<string>
    var isProcessing: bool
    var nextRescanTime: real

    function Queue(): QueueState
      reads this
    {
      QueueState(queue, known, isProcessing)
    }

    function State(): PluginState
      reads this
    {
      PluginState(Queue(), nextRescanTime)
    }

    /** Initialize: the queue from a first scan of the pending directory. */
    constructor (now: real, dirExists: bool, listing: seq<PendingProbe>)
      ensures State() == Initial(now, dirExists, listing)
    {
      queue, known, isProcessing := [], {}, false;
      nextRescanTime := 0.0;
      new;
      EnqueueAllPendingFiles(dirExists, listing);
      nextRescanTime := now + PendingRescanIntervalSeconds;
    }

    /** SortQueue: by file time, then by id. */
    method SortQueue()
      modifies this
      ensures Queue() == old(Queue()).(queue := SortedQueue(old(queue))) && nextRescanTime == old(nextRescanTime)
    {
      queue := SortedQueue(queue);
    }

    /** TryEnqueuePendingFile, as called by the watcher and the rescan. */
    method TryEnqueuePendingFile(fullPath: string, fileExists: bool, fileTime: int)
      modifies this
      ensures Queue() == Enqueue(old(Queue()), fullPath, fileExists, fileTime) && nextRescanTime == old(nextRescanTime)
    {
      ghost var before := Queue();
      if fullPath == "" || !fileExists {
        EnqueueRejected(before, fullPath, fileExists, fileTime);
        return;
      }
      var key := Lower(fullPath);
      if key in known {
        EnqueueRejected(before, fullPath, fileExists, fileTime);
        return;
      }
      var id := FileNameWithoutExtension(fullPath);
      if id == "" {
        EnqueueRejected(before, fullPath, fileExists, fileTime);
        return;
      }
      EnqueueAccepted(before, fullPath, fileTime, id);
      queue := queue + [PendingFileItem(fullPath, id, 0, 0.0, fileTime)];
      known := known + {key};
      SortQueue();
    }

    /** EnqueueAllPendingFiles: every listed file, then one sort. */
    method EnqueueAllPendingFiles(dirExists: bool, listing: seq<PendingProbe>)
      modifies this
      ensures Queue() == EnqueueAll(old(Queue()), dirExists, listing) && nextRescanTime == old(nextRescanTime)
    {
      if !dirExists {
        return;
      }
      var i := 0;
      while i < |listing|
        invariant 0 <= i <= |listing|
        invariant Queue() == EnqueueEach(old(Queue()), listing[..i]) && nextRescanTime == old(nextRescanTime)
      {
        TryEnqueuePendingFile(listing[i].fullPath, listing[i].fileExists, listing[i].fileTime);
        assert listing[..i + 1][..i] == listing[..i];
        i := i + 1;
      }
      assert listing[..|listing|] == listing;
      SortQueue();
    }

    /** OnEditorUpdate. */
    method OnEditorUpdate(input: UpdateInput) returns (handled: Option<Handling>)
      requires WellFormed(input)
      modifies this
      ensures (State(), handled) == Update(old(State()), input)
    {
      if input.now >= nextRescanTime {
        nextRescanTime := input.now + PendingRescanIntervalSeconds;
        EnqueueAllPendingFiles(input.dirExists, input.listing);
      }
      if isProcessing {
        return None;
      }
      if |queue| == 0 || input.now < queue[0].nextAttemptEditorTime {
        return None;
      }
      var item := queue[0];
      queue := queue[1..];
      known := known - {Lower(item.fullPath)};
      var h := ProcessPendingFile(item, input);
      handled := Some(h);
    }

    /** Reschedule: the item back at the front, due after its next delay. */
    method Reschedule(item: PendingFileItem, now: real)
      requires ShouldRetryRead(item, ReadRetryDelaysMs)
      modifies this
      ensures Queue() == Rescheduled(old(Queue()), item, now, ReadRetryDelaysMs) && nextRescanTime == old(nextRescanTime)
    {
      var delayMs := ReadRetryDelaysMs[item.attempt];
      var retried := item.(attempt := item.attempt + 1, nextAttemptEditorTime := now + (delayMs as real) / 1000.0);
      queue := [retried] + queue;
      known := known + {Lower(item.fullPath)};
      isProcessing := false;
    }

    /**
     * ProcessPendingFile, ProcessBatchCommand and ProcessBatchCommands: processing is set,
     * the file is retried, reported or executed (writing the results is not modelled), and
     * processing ends on every path.
     */
    method ProcessPendingFile(item: PendingFileItem, input: UpdateInput) returns (h: Handling)
      requires WellFormed(input)
      modifies this
      ensures var (q, h') := Handle(old(Queue()), item, input);
              Queue() == q && nextRescanTime == old(nextRescanTime) && h == h'
    {
      isProcessing := true;
      match input.parsed {
        case Failure(ex) =>
          match OnParseFailure(item, ex, ReadRetryDelaysMs) {
            case Retry =>
              Reschedule(item, input.now);
              h := Retried(item.id);
            case Archive(code, message, detail) =>
              h := ErrorArchived(item.id, code, message, detail);
          }
        case Success(batch) =>
          var result := BatchExecutor.Execute(BatchExecutor.AgentLegacy, batch, input.batchElapsed, input.cmdElapsed, input.dispatch);
          h := Executed(item.id, result);
      }
      isProcessing := false;
    }
  }
}
