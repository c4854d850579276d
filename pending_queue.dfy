// The pending-file queue shared by both editor plugins
// (UnityAgentSkills/AgentCommandsPlugin.cs and UnitySkills/AgentCommands/AgentCommandsPlugin.cs):
// one item per pending command file, deduplicated by path ignoring case, kept
// sorted by file time and then by id, and taken from the front once its retry
// time has come. Both copies have the same queue code.
module PendingQueue {
  import opened Wrappers
  import opened Text
  import opened Commands
  import BatchExecutor

  /** PendingFileItem: file times are DateTime ticks and editor times seconds. */
  datatype PendingFileItem = PendingFileItem(fullPath: string, id: string, attempt: nat,
                                             nextAttemptEditorTime: real, fileTime: int)

  predicate IsDirectorySeparator(c: char)
  {
    c == '/' || c == '\\'
  }

  /** Path.GetFileName: what follows the last directory separator. */
  function FileName(path: string): (r: string)
    ensures |r| <= |path| && r == path[|path| - |r|..]
    ensures forall k :: 0 <= k < |r| ==> !IsDirectorySeparator(r[k])
    ensures |r| < |path| ==> IsDirectorySeparator(path[|path| - |r| - 1])
    decreases |path|
  {
    if path == [] then []
    else if IsDirectorySeparator(path[|path| - 1]) then []
    else FileName(path[..|path| - 1]) + [path[|path| - 1]]
  }

  /** The name without its last '.' and what follows it; a name without '.' is kept whole. */
  function StripExtension(name: string): (r: string)
    ensures |r| <= |name| && r == name[..|r|]
    ensures '.' !in name ==> r == name
    ensures '.' in name ==> |r| < |name| && name[|r|] == '.' && '.' !in name[|r| + 1..]
    decreases |name|
  {
    if '.' !in name then name
    else if name[|name| - 1] == '.' then name[..|name| - 1]
    else
      var r := StripExtension(name[..|name| - 1]);
      assert '.' in name[..|name| - 1] by {
        var k :| 0 <= k < |name| && name[k] == '.';
        assert name[..|name| - 1][k] == '.';
      }
      assert name[|r| + 1..] == name[..|name| - 1][|r| + 1..] + [name[|name| - 1]];
      r
  }

  /** Path.GetFileNameWithoutExtension, the item's id. */
  function FileNameWithoutExtension(path: string): string
  {
    StripExtension(FileName(path))
  }

  /** string.Compare(a, b, StringComparison.Ordinal) <= 0: character by character, a prefix first. */
  predicate OrdinalLessEq(a: string, b: string)
    decreases |a|
  {
    a == [] || (b != [] && (a[0] < b[0] || (a[0] == b[0] && OrdinalLessEq(a[1..], b[1..]))))
  }

  lemma {:induction false} OrdinalTotal(a: string, b: string)
    ensures OrdinalLessEq(a, b) || OrdinalLessEq(b, a)
    decreases |a|
  {
    if a != [] && b != [] && a[0] == b[0] {
      OrdinalTotal(a[1..], b[1..]);
    }
  }

  lemma {:induction false} OrdinalTransitive(a: string, b: string, c: string)
    requires OrdinalLessEq(a, b) && OrdinalLessEq(b, c)
    ensures OrdinalLessEq(a, c)
    decreases |a|
  {
    if a != [] && a[0] == b[0] && b[0] == c[0] {
      OrdinalTransitive(a[1..], b[1..], c[1..]);
    }
  }

  /** The SortQueue comparison: file time first, then the id ordinally. */
  predicate ItemBefore(a: PendingFileItem, b: PendingFileItem)
  {
    a.fileTime < b.fileTime || (a.fileTime == b.fileTime && OrdinalLessEq(a.id, b.id))
  }

  lemma ItemBeforeTotal(a: PendingFileItem, b: PendingFileItem)
    ensures ItemBefore(a, b) || ItemBefore(b, a)
  {
    OrdinalTotal(a.id, b.id);
  }

  lemma ItemBeforeTransitive(a: PendingFileItem, b: PendingFileItem, c: PendingFileItem)
    requires ItemBefore(a, b) && ItemBefore(b, c)
    ensures ItemBefore(a, c)
  {
    if a.fileTime == b.fileTime == c.fileTime {
      OrdinalTransitive(a.id, b.id, c.id);
    }
  }

  predicate Sorted(q: seq<PendingFileItem>)
  {
    forall k :: 0 < k < |q| ==> ItemBefore(q[k - 1], q[k])
  }

  /** `x` placed before the first item it sorts before. */
  function Insert(x: PendingFileItem, q: seq<PendingFileItem>): (r: seq<PendingFileItem>)
    ensures |r| == |q| + 1 && multiset(r) == multiset(q) + multiset{x}
    ensures r[0] == x || (q != [] && r[0] == q[0])
    decreases |q|
  {
    if q == [] then [x]
    else if ItemBefore(x, q[0]) then [x] + q
    else
      var r := [q[0]] + Insert(x, q[1..]);
      assert q == [q[0]] + q[1..];
      r
  }

  /** SortQueue: the queue in ItemBefore order. */
  function SortedQueue(q: seq<PendingFileItem>): (r: seq<PendingFileItem>)
    ensures |r| == |q| && multiset(r) == multiset(q)
    decreases |q|
  {
    if q == [] then []
    else
      var r := Insert(q[0], SortedQueue(q[1..]));
      assert q == [q[0]] + q[1..];
      r
  }

  lemma {:induction false} InsertSorted(x: PendingFileItem, q: seq<PendingFileItem>)
    requires Sorted(q)
    ensures Sorted(Insert(x, q))
    decreases |q|
  {
    if q != [] && !ItemBefore(x, q[0]) {
      ItemBeforeTotal(x, q[0]);
      InsertSorted(x, q[1..]);
      var t := Insert(x, q[1..]);
      assert Insert(x, q) == [q[0]] + t;
      assert ItemBefore(q[0], t[0]);
    }
  }

  /** The sorted queue is in order and holds the same items. */
  lemma {:induction false} SortedQueueSorted(q: seq<PendingFileItem>)
    ensures Sorted(SortedQueue(q)) && multiset(SortedQueue(q)) == multiset(q)
    decreases |q|
  {
    if q != [] {
      SortedQueueSorted(q[1..]);
      InsertSorted(q[0], SortedQueue(q[1..]));
    }
  }

  /** A sorted queue is in order between any two positions, not only neighbours. */
  lemma {:induction false} SortedPairwise(q: seq<PendingFileItem>, i: nat, j: nat)
    requires Sorted(q) && i < j < |q|
    ensures ItemBefore(q[i], q[j])
    decreases j - i
  {
    if i + 1 < j {
      SortedPairwise(q, i + 1, j);
      ItemBeforeTransitive(q[i], q[i + 1], q[j]);
    }
  }

  /** The dedup keys of the queued items (the set compares paths ignoring case). */
  function Paths(q: seq<PendingFileItem>): (r: set<string>)
    ensures forall k :: 0 <= k < |q| ==> Lower(q[k].fullPath) in r
    decreases |q|
  {
    if q == [] then {} else {Lower(q[0].fullPath)} + Paths(q[1..])
  }

  /** No file is queued twice. */
  predicate DistinctPaths(q: seq<PendingFileItem>)
    decreases |q|
  {
    q == [] || (Lower(q[0].fullPath) !in Paths(q[1..]) && DistinctPaths(q[1..]))
  }

  lemma {:induction false} InsertPaths(x: PendingFileItem, q: seq<PendingFileItem>)
    ensures Paths(Insert(x, q)) == Paths(q) + {Lower(x.fullPath)}
    ensures DistinctPaths(q) && Lower(x.fullPath) !in Paths(q) ==> DistinctPaths(Insert(x, q))
    decreases |q|
  {
    if q != [] && !ItemBefore(x, q[0]) {
      InsertPaths(x, q[1..]);
      assert Insert(x, q) == [q[0]] + Insert(x, q[1..]);
      assert ([q[0]] + Insert(x, q[1..]))[1..] == Insert(x, q[1..]);
    } else if q != [] {
      assert ([x] + q)[1..] == q;
    }
  }

  lemma {:induction false} SortedQueuePaths(q: seq<PendingFileItem>)
    ensures Paths(SortedQueue(q)) == Paths(q)
    ensures DistinctPaths(q) ==> DistinctPaths(SortedQueue(q))
    decreases |q|
  {
    if q != [] {
      SortedQueuePaths(q[1..]);
      InsertPaths(q[0], SortedQueue(q[1..]));
    }
  }

  lemma {:induction false} PathsSnoc(q: seq<PendingFileItem>, x: PendingFileItem)
    ensures Paths(q + [x]) == Paths(q) + {Lower(x.fullPath)}
    ensures DistinctPaths(q) && Lower(x.fullPath) !in Paths(q) ==> DistinctPaths(q + [x])
    decreases |q|
  {
    if q != [] {
      assert (q + [x])[1..] == q[1..] + [x];
      PathsSnoc(q[1..], x);
    } else {
      assert ([] + [x])[1..] == [];
    }
  }

  /** The queue, the dedup set and the processing flag of one plugin. */
  datatype QueueState = QueueState(queue: seq<PendingFileItem>, known: set<string>, isProcessing: bool)

  /** The dedup set names exactly the queued files, each once. */
  predicate QueueInvariant(st: QueueState)
  {
    st.known == Paths(st.queue) && DistinctPaths(st.queue)
  }

  /** TryEnqueuePendingFile with the file's existence and sort time given. */
  function Enqueue(st: QueueState, fullPath: string, fileExists: bool, fileTime: int): QueueState
  {
    if fullPath == "" || !fileExists || Lower(fullPath) in st.known then st
    else
      var id := FileNameWithoutExtension(fullPath);
      if id == "" then st
      else st.(queue := SortedQueue(st.queue + [PendingFileItem(fullPath, id, 0, 0.0, fileTime)]),
               known := st.known + {Lower(fullPath)})
  }

  /** An empty path, a missing file, a known path or an empty id leave the queue as it was. */
  lemma EnqueueRejected(st: QueueState, fullPath: string, fileExists: bool, fileTime: int)
    requires fullPath == "" || !fileExists || Lower(fullPath) in st.known || FileNameWithoutExtension(fullPath) == ""
    ensures Enqueue(st, fullPath, fileExists, fileTime) == st
  {
  }

  /** The accepting path of Enqueue, step by step as TryEnqueuePendingFile takes it. */
  lemma EnqueueAccepted(st: QueueState, fullPath: string, fileTime: int, id: string)
    requires fullPath != "" && Lower(fullPath) !in st.known
    requires id == FileNameWithoutExtension(fullPath) && id != ""
    ensures Enqueue(st, fullPath, true, fileTime)
         == st.(queue := SortedQueue(st.queue + [PendingFileItem(fullPath, id, 0, 0.0, fileTime)]), known := st.known + {Lower(fullPath)})
  {
  }

  /**
   * A new file joins the queue once, with attempt 0 and no wait, the queue is sorted
   * afterwards, and a known path, an empty one, a missing file or an empty id change nothing.
   */
  lemma EnqueueEffect(st: QueueState, fullPath: string, fileExists: bool, fileTime: int)
    requires QueueInvariant(st)
    ensures var st' := Enqueue(st, fullPath, fileExists, fileTime);
            && QueueInvariant(st')
            && st'.isProcessing == st.isProcessing
            && (fullPath == "" || !fileExists || Lower(fullPath) in st.known || FileNameWithoutExtension(fullPath) == "" ==> st' == st)
            && (fullPath != "" && fileExists && Lower(fullPath) !in st.known && FileNameWithoutExtension(fullPath) != "" ==>
                  && Sorted(st'.queue)
                  && multiset(st'.queue) == multiset(st.queue) + multiset{PendingFileItem(fullPath, FileNameWithoutExtension(fullPath), 0, 0.0, fileTime)}
                  && st'.known == st.known + {Lower(fullPath)})
  {
    var id := FileNameWithoutExtension(fullPath);
    if fullPath != "" && fileExists && Lower(fullPath) !in st.known && id != "" {
      var x := PendingFileItem(fullPath, id, 0, 0.0, fileTime);
      PathsSnoc(st.queue, x);
      SortedQueuePaths(st.queue + [x]);
      SortedQueueSorted(st.queue + [x]);
    }
  }

  /** The dequeue step of OnEditorUpdate: the head, once idle and its retry time has come. */
  function Dequeue(st: QueueState, now: real): (Option<PendingFileItem>, QueueState)
  {
    if st.isProcessing || st.queue == [] || now < st.queue[0].nextAttemptEditorTime then (None, st)
    else (Some(st.queue[0]), st.(queue := st.queue[1..], known := st.known - {Lower(st.queue[0].fullPath)}))
  }

  /**
   * An item is taken exactly when the plugin is idle and the head's retry time has come;
   * it is the head, and it leaves both the queue and the dedup set.
   */
  lemma DequeueEffect(st: QueueState, now: real)
    requires QueueInvariant(st)
    ensures var (item, st') := Dequeue(st, now);
            && QueueInvariant(st')
            && (item.Some? <==> !st.isProcessing && st.queue != [] && now >= st.queue[0].nextAttemptEditorTime)
            && (item.Some? ==> item.value == st.queue[0] && st'.queue == st.queue[1..]
                               && Lower(item.value.fullPath) !in st'.known)
            && (item.None? ==> st' == st)
  {
  }

  /** ShouldRetryRead: a read is retried while attempts remain in the delay table. */
  predicate ShouldRetryRead(item: PendingFileItem, retryDelaysMs: seq<int>)
  {
    item.attempt < |retryDelaysMs|
  }

  /** Reschedule: back to the front, one attempt more, due after the next delay; processing ends. */
  function Rescheduled(st: QueueState, item: PendingFileItem, now: real, retryDelaysMs: seq<int>): QueueState
    requires ShouldRetryRead(item, retryDelaysMs)
  {
    var retried := item.(attempt := item.attempt + 1,
                         nextAttemptEditorTime := now + (retryDelaysMs[item.attempt] as real) / 1000.0);
    st.(queue := [retried] + st.queue, known := st.known + {Lower(item.fullPath)}, isProcessing := false)
  }

  /**
   * A rescheduled item is at the front with one attempt more, due `delay / 1000` seconds
   * from now, ahead of every later file; a dequeued item keeps the invariant.
   */
  lemma RescheduleEffect(st: QueueState, item: PendingFileItem, now: real, retryDelaysMs: seq<int>)
    requires ShouldRetryRead(item, retryDelaysMs)
    requires QueueInvariant(st) && Lower(item.fullPath) !in st.known
    ensures var st' := Rescheduled(st, item, now, retryDelaysMs);
            && QueueInvariant(st')
            && st'.queue[1..] == st.queue && !st'.isProcessing
            && st'.queue[0].fullPath == item.fullPath && st'.queue[0].attempt == item.attempt + 1
            && st'.queue[0].attempt <= |retryDelaysMs|
            && st'.queue[0].nextAttemptEditorTime == now + (retryDelaysMs[item.attempt] as real) / 1000.0
  {
    var st' := Rescheduled(st, item, now, retryDelaysMs);
    assert st'.queue[1..] == st.queue;
  }

  /** ReadRetryDelaysMs of the configuration: three retries, after 1, 2 and 4 seconds. */
  const ReadRetryDelaysMs: seq<int> := [1000, 2000, 4000]

  /** PendingRescanIntervalSeconds of the configuration. */
  const PendingRescanIntervalSeconds: real := 1.0

  /** What the file system reports for one file of the pending directory listing. */
  datatype PendingProbe = PendingProbe(fullPath: string, fileExists: bool, fileTime: int)

  /** TryEnqueuePendingFile for each listed file, in listing order. */
  function EnqueueEach(st: QueueState, listing: seq<PendingProbe>): QueueState
    decreases |listing|
  {
    if listing == [] then st
    else
      var last := listing[|listing| - 1];
      Enqueue(EnqueueEach(st, listing[..|listing| - 1]), last.fullPath, last.fileExists, last.fileTime)
  }

  /** EnqueueAllPendingFiles: nothing without the directory, else every listed file, then a sort. */
  function EnqueueAll(st: QueueState, dirExists: bool, listing: seq<PendingProbe>): QueueState
  {
    if !dirExists then st
    else
      var st' := EnqueueEach(st, listing);
      st'.(queue := SortedQueue(st'.queue))
  }

  /**
   * A rescan keeps the invariant and the processing flag, never drops a queued file, and
   * leaves the queue sorted; every listed file that exists and has an id is then queued.
   */
  lemma {:induction false} EnqueueEachEffect(st: QueueState, listing: seq<PendingProbe>)
    requires QueueInvariant(st)
    ensures var st' := EnqueueEach(st, listing);
            && QueueInvariant(st') && st'.isProcessing == st.isProcessing
            && st.known <= st'.known
            && (forall k :: (0 <= k < |listing| && listing[k].fullPath != "" && listing[k].fileExists
                               && FileNameWithoutExtension(listing[k].fullPath) != "") ==> Lower(listing[k].fullPath) in st'.known)
    decreases |listing|
  {
    if listing != [] {
      var init := listing[..|listing| - 1];
      var last := listing[|listing| - 1];
      EnqueueEachEffect(st, init);
      var mid := EnqueueEach(st, init);
      EnqueueEffect(mid, last.fullPath, last.fileExists, last.fileTime);
      forall k | 0 <= k < |listing| - 1
        ensures listing[k] == init[k]
      {
      }
    }
  }

  lemma EnqueueAllEffect(st: QueueState, dirExists: bool, listing: seq<PendingProbe>)
    requires QueueInvariant(st)
    ensures var st' := EnqueueAll(st, dirExists, listing);
            && QueueInvariant(st') && st'.isProcessing == st.isProcessing && st.known <= st'.known
            && (dirExists ==> Sorted(st'.queue))
            && (!dirExists ==> st' == st)
  {
    if dirExists {
      var mid := EnqueueEach(st, listing);
      EnqueueEachEffect(st, listing);
      SortedQueueSorted(mid.queue);
      SortedQueuePaths(mid.queue);
    }
  }

  /** A ": " separator starts at position j. */
  predicate SeparatorAt(s: string, j: int)
  {
    0 <= j && j + 1 < |s| && s[j] == ':' && s[j + 1] == ' '
  }

  /** The first ": " at or after `from`. */
  function FirstSeparator(s: string, from: nat): (r: Option<nat>)
    ensures r.Some? ==> from <= r.value && SeparatorAt(s, r.value)
    ensures r.Some? ==> forall j :: from <= j < r.value ==> !SeparatorAt(s, j)
    ensures r.None? ==> forall j :: from <= j ==> !SeparatorAt(s, j)
    decreases |s| - from
  {
    if from + 1 >= |s| then None
    else if SeparatorAt(s, from) then Some(from)
    else FirstSeparator(s, from + 1)
  }

  /** An exception message split as Split(": ", 2): the code, and the detail ("" without a separator). */
  datatype ErrorParts = ErrorParts(code: string, detail: string)

  function SplitCode(message: string): (r: ErrorParts)
    ensures FirstSeparator(message, 0).None? ==> r == ErrorParts(message, "")
    ensures FirstSeparator(message, 0).Some? ==> r.code + ": " + r.detail == message
    ensures forall j :: !SeparatorAt(r.code, j)
  {
    match FirstSeparator(message, 0)
    case None => ErrorParts(message, "")
    case Some(k) =>
      var r := ErrorParts(message[..k], message[k + 2..]);
      assert message == message[..k] + ": " + message[k + 2..];
      forall j ensures !SeparatorAt(r.code, j)
      {
        if SeparatorAt(r.code, j) {
          assert SeparatorAt(message, j);
        }
      }
      r
  }

  /** A message built as code + ": " + detail splits back into its code and detail. */
  lemma SplitCodeRoundTrip(code: string, detail: string)
    requires ':' !in code
    ensures SplitCode(code + ": " + detail) == ErrorParts(code, detail)
  {
    var m := code + ": " + detail;
    assert SeparatorAt(m, |code|);
    forall j | 0 <= j < |code|
      ensures !SeparatorAt(m, j)
    {
      assert m[j] == code[j];
    }
    var k := FirstSeparator(m, 0);
    assert k == Some(|code|);
    assert m[..|code|] == code && m[|code| + 2..] == detail;
  }

  /** What ProcessBatchCommand does with a file it could not parse: read again later, or report the error. */
  datatype FailureAction = Retry | Archive(code: string, message: string, detail: string)

  function OnParseFailure(item: PendingFileItem, ex: Exception, retryDelaysMs: seq<int>): (a: FailureAction)
    ensures a.Retry? <==> ex.kind == ArgumentException && ShouldRetryRead(item, retryDelaysMs)
    ensures a.Archive? ==> a.message == ex.message && ErrorParts(a.code, a.detail) == SplitCode(ex.message)
  {
    if ex.kind == ArgumentException && ShouldRetryRead(item, retryDelaysMs) then Retry
    else
      var parts := SplitCode(ex.message);
      Archive(parts.code, ex.message, parts.detail)
  }

  /**
   * A file is read at most once more than there are delays: from the last attempt on, every
   * failure is archived, and an archived INVALID_JSON or INVALID_FIELDS error keeps its code.
   */
  lemma RetriesRunOut(item: PendingFileItem, ex: Exception, detail: string)
    requires item.attempt >= |ReadRetryDelaysMs|
    ensures OnParseFailure(item, ex, ReadRetryDelaysMs).Archive?
    ensures ex.message == InvalidJsonCode + ": " + detail ==>
              OnParseFailure(item, ex, ReadRetryDelaysMs) == Archive(InvalidJsonCode, ex.message, detail)
    ensures ex.message == InvalidFieldsCode + ": " + detail ==>
              OnParseFailure(item, ex, ReadRetryDelaysMs) == Archive(InvalidFieldsCode, ex.message, detail)
  {
    if ex.message == InvalidJsonCode + ": " + detail {
      SplitCodeRoundTrip(InvalidJsonCode, detail);
    }
    if ex.message == InvalidFieldsCode + ": " + detail {
      SplitCodeRoundTrip(InvalidFieldsCode, detail);
    }
  }

  /** What an editor update did with the file it took from the queue. */
  datatype Handling =
    | Retried(id: string)
    | ErrorArchived(id: string, code: string, message: string, detail: string)
    | Started(id: string, batchId: NullableString)
    | Executed(id: string, result: BatchExecutor.BatchResult)
}
