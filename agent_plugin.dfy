// The editor-side plugin of UnityAgentSkills (UnityAgentSkills/AgentCommandsPlugin.cs): a
// queue of pending batch files, filled by the directory watcher and a periodic rescan, and
// drained one file at a time on editor updates; a parsed batch becomes a session that later
// updates advance one Tick at a time.
//
// The editor clock, the directory listing, the parse result of the dequeued file and the
// session's per-tick observations are inputs of each update.
module AgentSkillsPlugin {
  import opened Wrappers
  import opened Text
  import opened Commands
  import BatchParser
  import BatchSession
  import opened PendingQueue

  /** The plugin's static fields, with the active session's state. */
  datatype PluginState = PluginState(q: QueueState, nextRescanTime: real, session: Option<BatchSession.SessionState>)

  /**
   * What one editor update observes: the editor time, the pending directory (for the rescan),
   * the session's tick inputs, and what ParseAndValidate returns for the file it dequeues.
   */
  datatype UpdateInput = UpdateInput(now: real, dirExists: bool, listing: seq<PendingProbe>,
                                     tick: BatchSession.TickInput,
                                     parsed: Result<BatchParser.BatchPendingCommand, Exception>)

  /** ParseAndValidate only returns batches that pass validation. */
  predicate ParsedWell(parsed: Result<BatchParser.BatchPendingCommand, Exception>)
  {
    parsed.Success? ==> BatchParser.Validate(Some(parsed.value)).None?
  }

  /**
   * The plugin's invariant: the dedup set matches the queue, and the processing flag is set
   * exactly while a session is active; that session is valid and not yet done.
   */
  predicate Valid(ps: PluginState)
  {
    && QueueInvariant(ps.q)
    && (ps.q.isProcessing <==> ps.session.Some?)
    && (ps.session.Some? ==> BatchSession.Valid(ps.session.value) && !ps.session.value.isDone)
  }

  /** Initialize: a rescan of the pending directory, and the next rescan one interval away. */
  function Initial(now: real, dirExists: bool, listing: seq<PendingProbe>): PluginState
  {
    PluginState(EnqueueAll(QueueState([], {}, false), dirExists, listing), now + PendingRescanIntervalSeconds, None)
  }

  /** The session branch of OnEditorUpdate: one Tick; a finished session is dropped and processing ends. */
  function AfterTick(ps: PluginState, tick: BatchSession.TickInput): PluginState
    requires ps.session.Some? && BatchSession.Valid(ps.session.value)
  {
    var s := BatchSession.Step(ps.session.value, tick);
    if s.isDone then ps.(q := ps.q.(isProcessing := false), session := None)
    else ps.(session := Some(s))
  }

  /** The periodic rescan: once the rescan time has come, the directory is listed again. */
  function Rescan(ps: PluginState, now: real, dirExists: bool, listing: seq<PendingProbe>): PluginState
  {
    if now >= ps.nextRescanTime then
      ps.(q := EnqueueAll(ps.q, dirExists, listing), nextRescanTime := now + PendingRescanIntervalSeconds)
    else ps
  }

  /**
   * ProcessPendingFile for a dequeued item: processing starts; a parse failure is retried
   * or reported, a parsed batch becomes the active session. `releaseOnArchive` says whether
   * the report path ends processing.
   */
  function Handle(q: QueueState, item: PendingFileItem, parsed: Result<BatchParser.BatchPendingCommand, Exception>,
                  now: real, releaseOnArchive: bool): (r: (QueueState, Option<BatchSession.SessionState>, Handling))
    requires ParsedWell(parsed)
    ensures r.2.id == item.id
    ensures r.1.Some? <==> parsed.Success?
    ensures parsed.Success? ==>
              && r.0 == q.(isProcessing := true)
              && r.1 == Some(BatchSession.Start(parsed.value))
              && r.2 == Started(item.id, parsed.value.batchId)
    ensures parsed.Failure? ==> (r.2.Retried? <==> parsed.error.kind == ArgumentException && ShouldRetryRead(item, ReadRetryDelaysMs))
    ensures r.2.Retried? ==> r.0 == Rescheduled(q.(isProcessing := true), item, now, ReadRetryDelaysMs)
    ensures r.2.ErrorArchived? ==> r.0 == q.(isProcessing := !releaseOnArchive) && r.2.message == parsed.error.message
  {
    var q1 := q.(isProcessing := true);
    match parsed
    case Failure(ex) =>
      (match OnParseFailure(item, ex, ReadRetryDelaysMs)
       case Retry => (Rescheduled(q1, item, now, ReadRetryDelaysMs), None, Retried(item.id))
       case Archive(code, message, detail) =>
         (q1.(isProcessing := !releaseOnArchive), None, ErrorArchived(item.id, code, message, detail)))
    case Success(batch) => (q1, Some(BatchSession.Start(batch)), Started(item.id, batch.batchId))
  }

  /** OnEditorUpdate: the active session first; otherwise the rescan, then at most one file. */
  function UpdateWith(ps: PluginState, input: UpdateInput, releaseOnArchive: bool): (r: (PluginState, Option<Handling>))
    requires ps.session.Some? ==> BatchSession.Valid(ps.session.value)
    requires ParsedWell(input.parsed)
    ensures ps.session.Some? ==> r == (AfterTick(ps, input.tick), None)
    ensures ps.session.None? ==>
              var taken := Dequeue(Rescan(ps, input.now, input.dirExists, input.listing).q, input.now).0;
              && (r.1.Some? <==> taken.Some?)
              && (r.1.Some? ==> r.1.value.id == taken.value.id)
    ensures r.0.session.Some? && ps.session.None? ==> r.1.Some? && r.1.value.Started?
  {
    if ps.session.Some? then (AfterTick(ps, input.tick), None)
    else
      var ps1 := Rescan(ps, input.now, input.dirExists, input.listing);
      var (item, q2) := Dequeue(ps1.q, input.now);
      if item.None? then (ps1, None)
      else
        var (q3, s, h) := Handle(q2, item.value, input.parsed, input.now, releaseOnArchive);
        (ps1.(q := q3, session := s), Some(h))
  }

  /** OnEditorUpdate with processing ended on every path that starts no session. */
  function Update(ps: PluginState, input: UpdateInput): (r: (PluginState, Option<Handling>))
    requires ps.session.Some? ==> BatchSession.Valid(ps.session.value)
    requires ParsedWell(input.parsed)
    ensures r.1.Some? && r.1.value.ErrorArchived? ==> !r.0.q.isProcessing
  {
    UpdateWith(ps, input, true)
  }

  /**
   * OnEditorUpdate as written: the error-report path leaves the processing flag set. It
   * reports the same handling as Update and differs from it in that flag only.
   */
  function UpdateAsWritten(ps: PluginState, input: UpdateInput): (r: (PluginState, Option<Handling>))
    requires ps.session.Some? ==> BatchSession.Valid(ps.session.value)
    requires ParsedWell(input.parsed)
    ensures r.1 == Update(ps, input).1
    ensures r.0 == Update(ps, input).0.(q := Update(ps, input).0.q.(isProcessing := r.0.q.isProcessing))
    ensures r.1.Some? && r.1.value.ErrorArchived? ==> r.0.q.isProcessing
  {
    UpdateWith(ps, input, false)
  }

  /** The plugin starts valid, idle and with a sorted queue. */
  lemma InitialValid(now: real, dirExists: bool, listing: seq<PendingProbe>)
    ensures var ps := Initial(now, dirExists, listing);
            Valid(ps) && !ps.q.isProcessing && Sorted(ps.q.queue)
  {
    var empty := QueueState([], {}, false);
    assert QueueInvariant(empty);
    EnqueueAllEffect(empty, dirExists, listing);
  }

  /** The session branch keeps the invariant: a finished session releases processing. */
  lemma AfterTickValid(ps: PluginState, tick: BatchSession.TickInput)
    requires Valid(ps) && ps.session.Some?
    ensures Valid(AfterTick(ps, tick))
  {
    BatchSession.TickValid(ps.session.value, tick);
  }

  /** Handling a dequeued item keeps the invariant, provided the report path releases processing. */
  lemma HandleValid(q: QueueState, item: PendingFileItem, parsed: Result<BatchParser.BatchPendingCommand, Exception>, now: real)
    requires ParsedWell(parsed)
    requires QueueInvariant(q) && !q.isProcessing && Lower(item.fullPath) !in q.known
    ensures var (q', s, h) := Handle(q, item, parsed, now, true);
            && QueueInvariant(q') && (q'.isProcessing <==> s.Some?)
            && (s.Some? ==> BatchSession.Valid(s.value) && !s.value.isDone)
            && (h.Started? <==> s.Some?)
  {
    var q1 := q.(isProcessing := true);
    match parsed
    case Failure(ex) =>
      if OnParseFailure(item, ex, ReadRetryDelaysMs).Retry? {
        RescheduleEffect(q1, item, now, ReadRetryDelaysMs);
      }
    case Success(batch) =>
      BatchSession.StartValid(batch);
  }

  /** Every editor update keeps the plugin's invariant. */
  lemma UpdateValid(ps: PluginState, input: UpdateInput)
    requires Valid(ps) && ParsedWell(input.parsed)
    ensures Valid(Update(ps, input).0)
  {
    if ps.session.Some? {
      AfterTickValid(ps, input.tick);
    } else {
      var ps1 := Rescan(ps, input.now, input.dirExists, input.listing);
      if input.now >= ps.nextRescanTime {
        EnqueueAllEffect(ps.q, input.dirExists, input.listing);
      }
      DequeueEffect(ps1.q, input.now);
      var (item, q2) := Dequeue(ps1.q, input.now);
      if item.Some? {
        HandleValid(q2, item.value, input.parsed, input.now);
      }
    }
  }

  /**
   * One batch at a time: a file is taken only when no session is active, and a taken file
   * is the head of the (rescanned) queue; while a session is active the queue is left alone.
   */
  lemma OneBatchAtATime(ps: PluginState, input: UpdateInput)
    requires Valid(ps) && ParsedWell(input.parsed)
    ensures var (ps', h) := Update(ps, input);
            && (ps.session.Some? ==> h.None? && ps'.q.queue == ps.q.queue && ps'.nextRescanTime == ps.nextRescanTime)
            && (h.Some? ==> ps.session.None? && h.value.id == Rescan(ps, input.now, input.dirExists, input.listing).q.queue[0].id)
            && (h.Some? && h.value.Started? ==> ps'.session == Some(BatchSession.Start(input.parsed.value)))
  {
  }

  /**
   * Progress: with no active session, an update takes a file exactly when the rescanned queue
   * has one whose retry time has come.
   */
  lemma IdleProgress(ps: PluginState, input: UpdateInput)
    requires Valid(ps) && ParsedWell(input.parsed) && ps.session.None?
    ensures var ps1 := Rescan(ps, input.now, input.dirExists, input.listing);
            Update(ps, input).1.Some? <==> ps1.q.queue != [] && input.now >= ps1.q.queue[0].nextAttemptEditorTime
  {
    if input.now >= ps.nextRescanTime {
      EnqueueAllEffect(ps.q, input.dirExists, input.listing);
    }
  }

  /** Processing set with no session to end it: no later update can take a file. */
  predicate Stalled(ps: PluginState)
  {
    QueueInvariant(ps.q) && ps.q.isProcessing && ps.session.None?
  }

  /** As written, a reported parse failure leaves the plugin stalled. */
  lemma ArchiveStalls(ps: PluginState, input: UpdateInput)
    requires Valid(ps) && ParsedWell(input.parsed)
    requires UpdateAsWritten(ps, input).1.Some? && UpdateAsWritten(ps, input).1.value.ErrorArchived?
    ensures Stalled(UpdateAsWritten(ps, input).0)
  {
    var ps1 := Rescan(ps, input.now, input.dirExists, input.listing);
    if input.now >= ps.nextRescanTime {
      EnqueueAllEffect(ps.q, input.dirExists, input.listing);
    }
    DequeueEffect(ps1.q, input.now);
  }

  /** As written, a stalled plugin stays stalled and takes no file, whatever the later updates see. */
  lemma {:induction false} StalledForever(ps: PluginState, inputs: seq<UpdateInput>)
    requires Stalled(ps)
    requires forall k :: 0 <= k < |inputs| ==> ParsedWell(inputs[k].parsed)
    ensures var (ps', taken) := RunAsWritten(ps, inputs);
            Stalled(ps') && taken == 0
    decreases |inputs|
  {
    if inputs != [] {
      var init := inputs[..|inputs| - 1];
      var last := inputs[|inputs| - 1];
      StalledForever(ps, init);
      var (mid, _) := RunAsWritten(ps, init);
      if last.now >= mid.nextRescanTime {
        EnqueueAllEffect(mid.q, last.dirExists, last.listing);
      }
    }
  }

  /** Consecutive updates as written, with the number of files taken. */
  function RunAsWritten(ps: PluginState, inputs: seq<UpdateInput>): (PluginState, nat)
    requires Stalled(ps) || ps.session.None?
    requires forall k :: 0 <= k < |inputs| ==> ParsedWell(inputs[k].parsed)
    decreases |inputs|
  {
    if inputs == [] then (ps, 0)
    else
      var (mid, taken) := RunAsWritten(ps, inputs[..|inputs| - 1]);
      if mid.session.Some? then (mid, taken)
      else
        var (next, h) := UpdateAsWritten(mid, inputs[|inputs| - 1]);
        (next, taken + if h.Some? then 1 else 0)
  }

  /**
   * A file that still fails to parse after its three retries is reported, and as written the
   * plugin never takes another file.
   */
  lemma ExhaustedRetryStalls(item: PendingFileItem, input: UpdateInput)
    requires item.attempt == |ReadRetryDelaysMs| && item.fullPath != "" && input.parsed.Failure?
    requires input.now >= item.nextAttemptEditorTime && input.now < 1.0
    ensures var ps := PluginState(QueueState([item], {Lower(item.fullPath)}, false), 1.0, None);
            && Valid(ps)
            && UpdateAsWritten(ps, input).1.Some? && UpdateAsWritten(ps, input).1.value.ErrorArchived?
            && Stalled(UpdateAsWritten(ps, input).0)
            && Update(ps, input).0.q == QueueState([], {}, false)
  {
    assert [item][1..] == [];
    assert Paths([item]) == {Lower(item.fullPath)};
    assert DistinctPaths([item]);
    RetriesRunOut(item, input.parsed.error, "");
  }

  class Plugin {
    var queue: seq<PendingFileItem>
    var known: set<string>
    var isProcessing: bool
    var nextRescanTime: real
    var activeSession: BatchSession.Session?

    function Queue(): QueueState
      reads this
    {
      QueueState(queue, known, isProcessing)
    }

    function State(): PluginState
      reads this, activeSession
    {
      PluginState(Queue(), nextRescanTime, if activeSession == null then None else Some(activeSession.State()))
    }

    /** Initialize: the queue from a first scan of the pending directory. */
    constructor (now: real, dirExists: bool, listing: seq<PendingProbe>)
      ensures State() == Initial(now, dirExists, listing)
    {
      queue, known, isProcessing := [], {}, false;
      nextRescanTime := 0.0;
      activeSession := null;
      new;
      EnqueueAllPendingFiles(dirExists, listing);
      nextRescanTime := now + PendingRescanIntervalSeconds;
    }

    /** SortQueue: by file time, then by id. */
    method SortQueue()
      modifies this
      ensures Queue() == old(Queue()).(queue := SortedQueue(old(queue)))
      ensures nextRescanTime == old(nextRescanTime) && activeSession == old(activeSession)
    {
      queue := SortedQueue(queue);
    }

    /** TryEnqueuePendingFile, as called by the watcher and the rescan. */
    method TryEnqueuePendingFile(fullPath: string, fileExists: bool, fileTime: int)
      modifies this
      ensures Queue() == Enqueue(old(Queue()), fullPath, fileExists, fileTime)
      ensures nextRescanTime == old(nextRescanTime) && activeSession == old(activeSession)
    {
      ghost var before := Queue();
      if fullPath == "" || !fileExists {
        EnqueueRejected(before, fullPath, fileExists, fileTime);
        return;
      }
      var key := Lower(fullPath);
      if key in known {
        EnqueueRejected(before, fullPath, fileExists, fileTime);
        return;
      }
      var id := FileNameWithoutExtension(fullPath);
      if id == "" {
        EnqueueRejected(before, fullPath, fileExists, fileTime);
        return;
      }
      EnqueueAccepted(before, fullPath, fileTime, id);
      queue := queue + [PendingFileItem(fullPath, id, 0, 0.0, fileTime)];
      known := known + {key};
      SortQueue();
    }

    /** EnqueueAllPendingFiles: every listed file, then one sort. */
    method EnqueueAllPendingFiles(dirExists: bool, listing: seq<PendingProbe>)
      modifies this
      ensures Queue() == EnqueueAll(old(Queue()), dirExists, listing)
      ensures nextRescanTime == old(nextRescanTime) && activeSession == old(activeSession)
    {
      if !dirExists {
        return;
      }
      var i := 0;
      while i < |listing|
        invariant 0 <= i <= |listing|
        invariant Queue() == EnqueueEach(old(Queue()), listing[..i])
        invariant nextRescanTime == old(nextRescanTime) && activeSession == old(activeSession)
      {
        TryEnqueuePendingFile(listing[i].fullPath, listing[i].fileExists, listing[i].fileTime);
        assert listing[..i + 1][..i] == listing[..i];
        i := i + 1;
      }
      assert listing[..|listing|] == listing;
      SortQueue();
    }

    /** OnEditorUpdate. */
    method OnEditorUpdate(input: UpdateInput) returns (handled: Option<Handling>)
      requires Valid(State()) && ParsedWell(input.parsed)
      modifies this, activeSession
      ensures (State(), handled) == Update(old(State()), input)
    {
      if activeSession != null {
        TickActive(input.tick);
        return None;
      }
      RescanIfDue(input.now, input.dirExists, input.listing);
      if isProcessing {
        return None;
      }
      var item := TakeHead(input.now);
      if item.None? {
        return None;
      }
      var h := ProcessPendingFile(item.value, input.parsed, input.now);
      handled := Some(h);
    }

    /** The session branch of OnEditorUpdate. */
    method TickActive(tick: BatchSession.TickInput)
      requires activeSession != null && BatchSession.Valid(activeSession.State())
      modifies this, activeSession
      ensures State() == AfterTick(old(State()), tick)
    {
      activeSession.Tick(tick);
      if activeSession.isDone {
        activeSession := null;
        isProcessing := false;
      }
    }

    /** The periodic rescan of OnEditorUpdate. */
    method RescanIfDue(now: real, dirExists: bool, listing: seq<PendingProbe>)
      requires activeSession == null
      modifies this
      ensures State() == Rescan(old(State()), now, dirExists, listing)
    {
      if now >= nextRescanTime {
        nextRescanTime := now + PendingRescanIntervalSeconds;
        EnqueueAllPendingFiles(dirExists, listing);
      }
    }

    /** The dequeue of OnEditorUpdate, once idle: the head, if its retry time has come. */
    method TakeHead(now: real) returns (item: Option<PendingFileItem>)
      requires !isProcessing
      modifies this
      ensures (item, Queue()) == Dequeue(old(Queue()), now)
      ensures nextRescanTime == old(nextRescanTime) && activeSession == old(activeSession)
    {
      if |queue| == 0 || now < queue[0].nextAttemptEditorTime {
        return None;
      }
      item := Some(queue[0]);
      queue := queue[1..];
      known := known - {Lower(item.value.fullPath)};
    }

    /** Reschedule: the item back at the front, due after its next delay. */
    method Reschedule(item: PendingFileItem, now: real)
      requires ShouldRetryRead(item, ReadRetryDelaysMs)
      modifies this
      ensures Queue() == Rescheduled(old(Queue()), item, now, ReadRetryDelaysMs)
      ensures nextRescanTime == old(nextRescanTime) && activeSession == old(activeSession)
    {
      var delayMs := ReadRetryDelaysMs[item.attempt];
      var retried := item.(attempt := item.attempt + 1, nextAttemptEditorTime := now + (delayMs as real) / 1000.0);
      queue := [retried] + queue;
      known := known + {Lower(item.fullPath)};
      isProcessing := false;
    }

    /**
     * ProcessPendingFile and ProcessBatchCommand: a parse failure is retried or reported
     * (writing the error result is not modelled), a parsed batch starts a session.
     */
    method ProcessPendingFile(item: PendingFileItem, parsed: Result<BatchParser.BatchPendingCommand, Exception>, now: real)
      returns (h: Handling)
      requires activeSession == null && ParsedWell(parsed)
      modifies this
      ensures var (q, s, h') := Handle(old(Queue()), item, parsed, now, true);
              && Queue() == q && h == h' && nextRescanTime == old(nextRescanTime)
              && (s.None? ==> activeSession == null)
              && (s.Some? ==> activeSession != null && fresh(activeSession) && activeSession.State() == s.value)
    {
      isProcessing := true;
      match parsed
      case Failure(ex) =>
        match OnParseFailure(item, ex, ReadRetryDelaysMs) {
          case Retry =>
            Reschedule(item, now);
            h := Retried(item.id);
          case Archive(code, message, detail) =>
            isProcessing := false;
            h := ErrorArchived(item.id, code, message, detail);
        }
      case Success(batch) =>
        activeSession := new BatchSession.Session(batch);
        h := Started(item.id, batch.batchId);
    }
  }
}
