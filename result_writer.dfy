// BatchResultWriter, in its two copies (UnityAgentSkills/Core/BatchResultWriter.cs and
// UnitySkills/AgentCommands/Core/BatchResultWriter.cs): the error result of a batch that could
// not be read, the archiving of the pending file, and the retention pass that keeps at most
// MaxResults final results. Only the UnityAgentSkills copy also deletes the screenshots a
// deleted result points to, and only inside the results directory.
//
// The results directory listing (each file's text, its parse and its write time), the
// existence of files and Path.GetFullPath are inputs; writing and deleting files are the
// outputs the operations return.
module ResultWriter {
  import opened Wrappers
  import opened Text
  import opened JsonValues
  import opened Commands
  import BatchExecutor
  import opened PendingQueue
  import Screenshot

  /** MaxResults of the configuration. */
  const MaxResults := 20

  /** The text that marks a result still being written. */
  const ProcessingMarker := "\"status\":\"processing\""

  /** The two copies: only the UnityAgentSkills one cleans up screenshots. */
  datatype Writer = SkillsWriter | CommandsWriter

  /** One `*.json` file of the results directory, as read and parsed, with its write time. */
  datatype ResultFile = ResultFile(path: string, text: string, decoded: Result<Json, string>, writeTime: int)

  /** JsonData.ToString: a string's own text, any other value rendered; a null node throws (None). */
  function ToText(j: Json, render: Json -> string): (r: Option<string>)
    ensures r.None? <==> j.JNull?
    ensures j.JString? ==> r == Some(j.s)
  {
    if j.JNull? then None
    else if j.JString? then Some(j.s)
    else Some(render(j))
  }

  /** A result file with a final status: success, error or completed, and not being written. */
  predicate IsFinalFile(f: ResultFile, render: Json -> string)
  {
    && f.text != "" && !Contains(f.text, ProcessingMarker)
    && f.decoded.Success? && HasKey(f.decoded.value, "status")
    && var status := ToText(f.decoded.value.fields["status"], render);
       status.Some? && status.value in {SuccessStatus, ErrorStatus, BatchExecutor.CompletedBatchStatus}
  }

  /** A null status makes ToString throw, and the catch skips the file. */
  lemma NullStatusNotFinal(f: ResultFile, render: Json -> string)
    requires f.decoded.Success? && HasKey(f.decoded.value, "status") && f.decoded.value.fields["status"] == JNull
    ensures !IsFinalFile(f, render)
  {
  }

  /** The final files, in listing order. */
  function FinalFiles(files: seq<ResultFile>, render: Json -> string): (r: seq<ResultFile>)
    ensures |r| <= |files|
    decreases |files|
  {
    if files == [] then []
    else
      var init := FinalFiles(files[..|files| - 1], render);
      var last := files[|files| - 1];
      if IsFinalFile(last, render) then init + [last] else init
  }

  /** One more listed file is kept exactly when it is final. */
  lemma FinalFilesStep(files: seq<ResultFile>, i: nat, render: Json -> string)
    requires i < |files|
    ensures IsFinalFile(files[i], render) ==> FinalFiles(files[..i + 1], render) == FinalFiles(files[..i], render) + [files[i]]
    ensures !IsFinalFile(files[i], render) ==> FinalFiles(files[..i + 1], render) == FinalFiles(files[..i], render)
  {
    assert files[..i + 1][..i] == files[..i];
    assert files[..i + 1][i] == files[i];
  }

  /** The finals are exactly the listed files that are final. */
  lemma {:induction false} FinalFilesMembers(files: seq<ResultFile>, render: Json -> string)
    ensures var r := FinalFiles(files, render);
            && (forall k :: 0 <= k < |r| ==> r[k] in files && IsFinalFile(r[k], render))
            && (forall f :: f in files && IsFinalFile(f, render) ==> f in r)
    decreases |files|
  {
    if files != [] {
      var prefix := files[..|files| - 1];
      var last := files[|files| - 1];
      FinalFilesMembers(prefix, render);
      assert files == prefix + [last];
      var r := FinalFiles(files, render);
      var init := FinalFiles(prefix, render);
      if IsFinalFile(last, render) {
        assert r == init + [last];
      } else {
        assert r == init;
      }
    }
  }

  /** The retention order: write time first, then the file name ordinally. */
  predicate FileBefore(a: ResultFile, b: ResultFile)
  {
    a.writeTime < b.writeTime || (a.writeTime == b.writeTime && OrdinalLessEq(FileName(a.path), FileName(b.path)))
  }

  lemma FileBeforeTotal(a: ResultFile, b: ResultFile)
    ensures FileBefore(a, b) || FileBefore(b, a)
  {
    OrdinalTotal(FileName(a.path), FileName(b.path));
  }

  lemma FileBeforeTransitive(a: ResultFile, b: ResultFile, c: ResultFile)
    requires FileBefore(a, b) && FileBefore(b, c)
    ensures FileBefore(a, c)
  {
    if a.writeTime == b.writeTime == c.writeTime {
      OrdinalTransitive(FileName(a.path), FileName(b.path), FileName(c.path));
    }
  }

  predicate SortedFiles(fs: seq<ResultFile>)
  {
    forall k :: 0 < k < |fs| ==> FileBefore(fs[k - 1], fs[k])
  }

  /** `x` placed before the first file it sorts before. */
  function InsertFile(x: ResultFile, fs: seq<ResultFile>): (r: seq<ResultFile>)
    ensures |r| == |fs| + 1 && multiset(r) == multiset(fs) + multiset{x}
    ensures r[0] == x || (fs != [] && r[0] == fs[0])
    decreases |fs|
  {
    if fs == [] then [x]
    else if FileBefore(x, fs[0]) then [x] + fs
    else
      var r := [fs[0]] + InsertFile(x, fs[1..]);
      assert fs == [fs[0]] + fs[1..];
      r
  }

  /** The finals list after its Sort. */
  function SortFiles(fs: seq<ResultFile>): (r: seq<ResultFile>)
    ensures |r| == |fs| && multiset(r) == multiset(fs)
    decreases |fs|
  {
    if fs == [] then []
    else
      var rest := fs[1..];
      assert fs == [fs[0]] + rest;
      assert multiset(fs) == multiset{fs[0]} + multiset(rest);
      InsertFile(fs[0], SortFiles(rest))
  }

  lemma {:induction false} InsertFileSorted(x: ResultFile, fs: seq<ResultFile>)
    requires SortedFiles(fs)
    ensures SortedFiles(InsertFile(x, fs))
    decreases |fs|
  {
    if fs != [] && !FileBefore(x, fs[0]) {
      FileBeforeTotal(x, fs[0]);
      InsertFileSorted(x, fs[1..]);
      var t := InsertFile(x, fs[1..]);
      assert InsertFile(x, fs) == [fs[0]] + t;
      assert FileBefore(fs[0], t[0]);
    }
  }

  lemma {:induction false} SortFilesSorted(fs: seq<ResultFile>)
    ensures SortedFiles(SortFiles(fs))
    decreases |fs|
  {
    if fs != [] {
      SortFilesSorted(fs[1..]);
      InsertFileSorted(fs[0], SortFiles(fs[1..]));
    }
  }

  lemma {:induction false} SortedFilesPairwise(fs: seq<ResultFile>, i: nat, j: nat)
    requires SortedFiles(fs) && i < j < |fs|
    ensures FileBefore(fs[i], fs[j])
    decreases j - i
  {
    if i + 1 < j {
      SortedFilesPairwise(fs, i + 1, j);
      FileBeforeTransitive(fs[i], fs[i + 1], fs[j]);
    }
  }

  /** IsUnderDirectory: a case-insensitive prefix test against the directory with a trailing separator. */
  predicate IsUnderDirectory(path: string, directory: string, separator: char)
  {
    && path != "" && directory != ""
    && var dir := WithSeparator(directory, separator);
       |dir| <= |path| && Lower(path[..|dir|]) == Lower(dir)
  }

  /** The directory as IsUnderDirectory compares it: a separator appended unless one ends it. */
  function WithSeparator(directory: string, separator: char): (r: string)
    requires directory != ""
    ensures |directory| <= |r| <= |directory| + 1 && r[..|directory|] == directory
    ensures r[|r| - 1] in {'/', '\\', separator}
  {
    var last := directory[|directory| - 1];
    if last == '/' || last == '\\' then directory else directory + [separator]
  }

  /** An empty path or directory is never under anything. */
  lemma EmptyNotUnder(path: string, directory: string, separator: char)
    requires path == "" || directory == ""
    ensures !IsUnderDirectory(path, directory, separator)
  {
  }

  /** A name joined onto the directory is under it, whatever the case of either. */
  lemma ChildIsUnder(directory: string, name: string, separator: char)
    requires directory != "" && name != ""
    ensures IsUnderDirectory(WithSeparator(directory, separator) + name, directory, separator)
  {
    var dir := WithSeparator(directory, separator);
    assert (dir + name)[..|dir|] == dir;
  }

  /**
   * Without a trailing separator, the directory itself is not under it, and neither is a
   * sibling whose name merely starts with the directory's name ("results2" beside "results").
   */
  lemma SiblingNotUnder(directory: string, c: char, rest: string, separator: char)
    requires directory != "" && directory[|directory| - 1] !in {'/', '\\'}
    requires LowerChar(c) != LowerChar(separator)
    ensures !IsUnderDirectory(directory, directory, separator)
    ensures !IsUnderDirectory(directory + [c] + rest, directory, separator)
  {
    var dir := WithSeparator(directory, separator);
    assert dir == directory + [separator];
    var p := directory + [c] + rest;
    assert Lower(dir)[|directory|] == LowerChar(separator);
    if |dir| <= |p| {
      assert p[..|dir|][|directory|] == c;
      assert Lower(p[..|dir|])[|directory|] == LowerChar(c);
    }
  }

  /** The path lies inside the full form of the results root. */
  predicate InResultsRoot(path: string, resultsRoot: string, fullPath: string -> Option<string>, separator: char)
  {
    fullPath(resultsRoot).Some? && IsUnderDirectory(path, fullPath(resultsRoot).value, separator)
  }

  /** TryDeleteScreenshotPath: the full path it deletes, if it lies inside the results root. */
  function ScreenshotTarget(absolutePath: string, resultsRoot: string, fullPath: string -> Option<string>, separator: char): (r: Option<string>)
    ensures r.Some? ==> InResultsRoot(r.value, resultsRoot, fullPath, separator)
    ensures r.Some? ==> absolutePath != "" && fullPath(absolutePath) == r
  {
    if absolutePath == "" || resultsRoot == "" then None
    else
      match (fullPath(resultsRoot), fullPath(absolutePath))
      case (Some(root), Some(target)) => if IsUnderDirectory(target, root, separator) then Some(target) else None
      case _ => None
  }

  /** What the loop body does with one entry of the results array. */
  datatype Entry = Skip | Image(path: string) | Throws

  /**
   * One entry of the results array: the image path of a successful log.screenshot command,
   * a skip, or a NullReferenceException from ToString of a null "type", "status" or
   * "imageAbsolutePath".
   */
  function ScreenshotImage(cmd: Json, render: Json -> string): (e: Entry)
    ensures e.Image? ==> cmd.JObject? && "result" in cmd.fields && cmd.fields["result"].JObject?
    ensures cmd.JObject? && "type" in cmd.fields && cmd.fields["type"] == JNull ==> e == Throws
  {
    if !cmd.JObject? then Skip
    else if "type" !in cmd.fields then Skip
    else
      match ToText(cmd.fields["type"], render)
      case None => Throws
      case Some(t) =>
        if !EqualsIgnoreCase(t, Screenshot.CommandType) then Skip
        else if "status" !in cmd.fields then Skip
        else
          match ToText(cmd.fields["status"], render)
          case None => Throws
          case Some(st) =>
            if st != SuccessStatus then Skip
            else if "result" !in cmd.fields || !cmd.fields["result"].JObject? then Skip
            else if "imageAbsolutePath" !in cmd.fields["result"].fields then Skip
            else
              match ToText(cmd.fields["result"].fields["imageAbsolutePath"], render)
              case None => Throws
              case Some(path) => Image(path)
  }

  /** How far the scan of a results array got: the deletions made, and whether an entry threw. */
  datatype Scan = Scan(targets: seq<string>, aborted: bool)

  /** The scan after one more entry: nothing once aborted, else the entry's own effect. */
  function ScanStep(s: Scan, cmd: Json, resultsRoot: string, fullPath: string -> Option<string>, separator: char,
                    render: Json -> string): Scan
  {
    if s.aborted then s
    else
      match ScreenshotImage(cmd, render)
      case Skip => s
      case Throws => s.(aborted := true)
      case Image(image) =>
        match ScreenshotTarget(image, resultsRoot, fullPath, separator)
        case None => s
        case Some(target) => s.(targets := s.targets + [target])
  }

  /** The scan of a results array, in order; an entry that throws ends it. */
  function ScreenshotScan(cmds: seq<Json>, resultsRoot: string, fullPath: string -> Option<string>, separator: char,
                          render: Json -> string): (r: Scan)
    ensures |r.targets| <= |cmds|
    decreases |cmds|
  {
    if cmds == [] then Scan([], false)
    else ScanStep(ScreenshotScan(cmds[..|cmds| - 1], resultsRoot, fullPath, separator, render), cmds[|cmds| - 1],
                  resultsRoot, fullPath, separator, render)
  }

  /** The screenshot deletions for a results array, in order, up to the first entry that throws. */
  function ScreenshotTargets(cmds: seq<Json>, resultsRoot: string, fullPath: string -> Option<string>, separator: char,
                             render: Json -> string): (r: seq<string>)
    ensures |r| <= |cmds|
  {
    ScreenshotScan(cmds, resultsRoot, fullPath, separator, render).targets
  }

  /** Every screenshot deletion lies inside the results root. */
  lemma {:induction false} ScreenshotTargetsInRoot(cmds: seq<Json>, resultsRoot: string, fullPath: string -> Option<string>,
                                                   separator: char, render: Json -> string)
    ensures forall k :: 0 <= k < |ScreenshotTargets(cmds, resultsRoot, fullPath, separator, render)| ==>
              InResultsRoot(ScreenshotTargets(cmds, resultsRoot, fullPath, separator, render)[k], resultsRoot, fullPath, separator)
    decreases |cmds|
  {
    if cmds != [] {
      var prefix := cmds[..|cmds| - 1];
      ScreenshotTargetsInRoot(prefix, resultsRoot, fullPath, separator, render);
      var before := ScreenshotScan(prefix, resultsRoot, fullPath, separator, render);
      var after := ScreenshotScan(cmds, resultsRoot, fullPath, separator, render);
      assert after == ScanStep(before, cmds[|cmds| - 1], resultsRoot, fullPath, separator, render);
      if after.targets != before.targets {
        var image := ScreenshotImage(cmds[|cmds| - 1], render).path;
        var target := ScreenshotTarget(image, resultsRoot, fullPath, separator);
        assert after.targets == before.targets + [target.value];
      }
      assert ScreenshotTargets(cmds, resultsRoot, fullPath, separator, render) == after.targets;
      assert ScreenshotTargets(prefix, resultsRoot, fullPath, separator, render) == before.targets;
    }
  }

  /** One more entry of the results array advances the scan by that entry alone. */
  lemma ScreenshotTargetsStep(cmds: seq<Json>, i: nat, resultsRoot: string, fullPath: string -> Option<string>, separator: char,
                              render: Json -> string)
    requires i < |cmds|
    ensures ScreenshotScan(cmds[..i + 1], resultsRoot, fullPath, separator, render)
              == ScanStep(ScreenshotScan(cmds[..i], resultsRoot, fullPath, separator, render), cmds[i],
                          resultsRoot, fullPath, separator, render)
  {
    assert cmds[..i + 1][..i] == cmds[..i];
    assert cmds[..i + 1][i] == cmds[i];
  }

  /** An entry that throws ends the scan: the entries after it delete nothing. */
  lemma {:induction false} ThrowStopsScan(cmds: seq<Json>, i: nat, resultsRoot: string, fullPath: string -> Option<string>,
                                          separator: char, render: Json -> string)
    requires i < |cmds| && ScreenshotImage(cmds[i], render) == Throws
    ensures ScreenshotTargets(cmds, resultsRoot, fullPath, separator, render)
              == ScreenshotTargets(cmds[..i], resultsRoot, fullPath, separator, render)
    ensures ScreenshotScan(cmds, resultsRoot, fullPath, separator, render).aborted
    decreases |cmds|
  {
    if i < |cmds| - 1 {
      ThrowStopsScan(cmds[..|cmds| - 1], i, resultsRoot, fullPath, separator, render);
      assert cmds[..|cmds| - 1][..i] == cmds[..i];
    } else {
      ScreenshotTargetsStep(cmds, i, resultsRoot, fullPath, separator, render);
      assert cmds[..i + 1] == cmds;
    }
  }

  /** A null "type" ahead of a screenshot entry stops the scan before the screenshot is deleted. */
  lemma NullTypeFirstDeletesNothing(shot: Json, resultsRoot: string, fullPath: string -> Option<string>, separator: char,
                                    render: Json -> string)
    ensures ScreenshotTargets([JObject(map["type" := JNull]), shot], resultsRoot, fullPath, separator, render) == []
  {
    var cmds := [JObject(map["type" := JNull]), shot];
    ThrowStopsScan(cmds, 0, resultsRoot, fullPath, separator, render);
  }

  /** CleanupScreenshotArtifactsFromResultJson: the screenshots a results file points to. */
  function ScreenshotArtifacts(f: ResultFile, resultsRoot: string, fullPath: string -> Option<string>, separator: char,
                               render: Json -> string): (r: seq<string>)
    ensures forall k :: 0 <= k < |r| ==> InResultsRoot(r[k], resultsRoot, fullPath, separator)
  {
    if f.path == "" || f.text == "" || f.decoded.Failure? || !HasKey(f.decoded.value, "results") then []
    else
      var results := f.decoded.value.fields["results"];
      if !results.JArray? then []
      else
        ScreenshotTargetsInRoot(results.items, resultsRoot, fullPath, separator, render);
        ScreenshotTargets(results.items, resultsRoot, fullPath, separator, render)
  }

  /** The environment of a retention pass. */
  datatype Dirs = Dirs(resultsRoot: string, doneDir: string, fullPath: string -> Option<string>, separator: char)

  /** What the retention pass deletes for one old result. */
  datatype Deletion = Deletion(resultPath: string, donePath: string, screenshots: seq<string>)

  /** Screenshots are deleted only by the UnityAgentSkills copy, and only inside the results root. */
  predicate SafeDeletion(w: Writer, d: Deletion, dirs: Dirs)
  {
    forall m :: 0 <= m < |d.screenshots| ==>
      w == SkillsWriter && InResultsRoot(d.screenshots[m], dirs.resultsRoot, dirs.fullPath, dirs.separator)
  }

  function DeletionOf(w: Writer, f: ResultFile, dirs: Dirs, render: Json -> string): (d: Deletion)
    ensures d.resultPath == f.path
  {
    Deletion(f.path, Screenshot.PathCombine(dirs.doneDir, FileNameWithoutExtension(f.path) + ".json"),
             if w == SkillsWriter then ScreenshotArtifacts(f, dirs.resultsRoot, dirs.fullPath, dirs.separator, render) else [])
  }

  /** A deletion's screenshots come from the UnityAgentSkills copy and lie inside the results root. */
  lemma DeletionOfSafe(w: Writer, f: ResultFile, dirs: Dirs, render: Json -> string)
    ensures SafeDeletion(w, DeletionOf(w, f, dirs, render), dirs)
  {
    if w == SkillsWriter {
      var shots := ScreenshotArtifacts(f, dirs.resultsRoot, dirs.fullPath, dirs.separator, render);
      assert DeletionOf(w, f, dirs, render).screenshots == shots;
    }
  }

  /** The deletions for the given results, in order. */
  function Deletions(w: Writer, fs: seq<ResultFile>, dirs: Dirs, render: Json -> string): (r: seq<Deletion>)
    ensures |r| == |fs|
    ensures forall k :: 0 <= k < |r| ==> r[k] == DeletionOf(w, fs[k], dirs, render) && r[k].resultPath == fs[k].path
  {
    EachOf(f => DeletionOf(w, f, dirs, render), fs)
  }

  /** The list of f's images, position by position. */
  function EachOf<A, B>(f: A -> B, xs: seq<A>): (r: seq<B>)
    ensures |r| == |xs| && forall k :: 0 <= k < |xs| ==> r[k] == f(xs[k])
  {
    seq(|xs|, k requires 0 <= k < |xs| => f(xs[k]))
  }

  lemma EachOfSnoc<A, B>(f: A -> B, xs: seq<A>, i: nat)
    requires i < |xs|
    ensures EachOf(f, xs[..i + 1]) == EachOf(f, xs[..i]) + [f(xs[i])]
  {
    assert forall k :: 0 <= k <= i ==> xs[..i + 1][k] == xs[k];
  }

  /** One more old result adds its own deletion. */
  lemma DeletionsStep(w: Writer, fs: seq<ResultFile>, i: nat, dirs: Dirs, render: Json -> string)
    requires i < |fs|
    ensures Deletions(w, fs[..i + 1], dirs, render) == Deletions(w, fs[..i], dirs, render) + [DeletionOf(w, fs[i], dirs, render)]
  {
    EachOfSnoc(f => DeletionOf(w, f, dirs, render), fs, i);
  }

  /** Every deletion of the list is safe. */
  lemma DeletionsSafe(w: Writer, fs: seq<ResultFile>, dirs: Dirs, render: Json -> string)
    ensures var r := Deletions(w, fs, dirs, render);
            forall k :: 0 <= k < |r| ==> SafeDeletion(w, r[k], dirs)
  {
    forall k | 0 <= k < |fs|
      ensures SafeDeletion(w, Deletions(w, fs, dirs, render)[k], dirs)
    {
      DeletionOfSafe(w, fs[k], dirs, render);
    }
  }

  /** CleanupOldResults: beyond MaxResults final results, the oldest are deleted with their archives. */
  function Retention(w: Writer, dirExists: bool, files: seq<ResultFile>, dirs: Dirs, render: Json -> string): seq<Deletion>
  {
    if !dirExists then []
    else
      var finals := FinalFiles(files, render);
      if |finals| <= MaxResults then []
      else Deletions(w, SortFiles(finals)[..|finals| - MaxResults], dirs, render)
  }

  /** The sorted final results are the final results, oldest first. */
  lemma SortedFinals(files: seq<ResultFile>, render: Json -> string)
    ensures var finals := FinalFiles(files, render);
            var sorted := SortFiles(finals);
            && multiset(sorted) == multiset(finals)
            && (forall k :: 0 <= k < |sorted| ==> IsFinalFile(sorted[k], render))
            && (forall i, j :: 0 <= i < j < |sorted| ==> FileBefore(sorted[i], sorted[j]))
  {
    var finals := FinalFiles(files, render);
    var sorted := SortFiles(finals);
    FinalFilesMembers(files, render);
    SortFilesSorted(finals);
    forall k | 0 <= k < |sorted|
      ensures IsFinalFile(sorted[k], render)
    {
      assert sorted[k] in multiset(finals);
    }
    forall i, j | 0 <= i < j < |sorted|
      ensures FileBefore(sorted[i], sorted[j])
    {
      SortedFilesPairwise(sorted, i, j);
    }
  }

  /**
   * Retention deletes nothing up to MaxResults final results; beyond, it deletes exactly the
   * excess, each an older final result than every one it keeps.
   */
  lemma RetentionDeletesOldest(w: Writer, files: seq<ResultFile>, dirs: Dirs, render: Json -> string)
    ensures var finals := FinalFiles(files, render);
            var r := Retention(w, true, files, dirs, render);
            var sorted := SortFiles(finals);
            && |r| == (if |finals| <= MaxResults then 0 else |finals| - MaxResults)
            && multiset(sorted) == multiset(finals)
            && (forall k :: 0 <= k < |r| ==> r[k].resultPath == sorted[k].path && IsFinalFile(sorted[k], render))
            && (forall i, j :: 0 <= i < |r| <= j < |sorted| ==> FileBefore(sorted[i], sorted[j]))
  {
    SortedFinals(files, render);
    var finals := FinalFiles(files, render);
    OldestExcess(w, SortFiles(finals), dirs, render);
  }

  /** The deletions of the excess of a sorted list name its first entries, in order. */
  lemma OldestExcess(w: Writer, sorted: seq<ResultFile>, dirs: Dirs, render: Json -> string)
    ensures var r := if |sorted| <= MaxResults then [] else Deletions(w, sorted[..|sorted| - MaxResults], dirs, render);
            && |r| == (if |sorted| <= MaxResults then 0 else |sorted| - MaxResults)
            && (forall k :: 0 <= k < |r| ==> r[k].resultPath == sorted[k].path)
  {
    if |sorted| > MaxResults {
      var doomed := sorted[..|sorted| - MaxResults];
      var r := Deletions(w, doomed, dirs, render);
      forall k | 0 <= k < |r|
        ensures r[k].resultPath == sorted[k].path
      {
        assert doomed[k] == sorted[k];
      }
    }
  }

  /** The UnityAgentSkills copy deletes screenshots only inside the results root; the other deletes none. */
  lemma ScreenshotsStayInResults(w: Writer, dirExists: bool, files: seq<ResultFile>, dirs: Dirs, render: Json -> string)
    ensures var r := Retention(w, dirExists, files, dirs, render);
            forall k :: 0 <= k < |r| ==> SafeDeletion(w, r[k], dirs)
  {
    var finals := FinalFiles(files, render);
    if dirExists && |finals| > MaxResults {
      var doomed := SortFiles(finals)[..|finals| - MaxResults];
      DeletionsSafe(w, doomed, dirs, render);
      var r := Retention(w, dirExists, files, dirs, render);
      assert r == Deletions(w, doomed, dirs, render);
    }
  }

  /** The collection loop of CleanupOldResults. */
  method CollectFinals(files: seq<ResultFile>, render: Json -> string) returns (finals: seq<ResultFile>)
    ensures finals == FinalFiles(files, render)
  {
    finals := [];
    var i := 0;
    while i < |files|
      invariant 0 <= i <= |files|
      invariant finals == FinalFiles(files[..i], render)
    {
      FinalFilesStep(files, i, render);
      if IsFinalFile(files[i], render) {
        finals := finals + [files[i]];
      }
      i := i + 1;
    }
    assert files[..|files|] == files;
  }

  /** CleanupScreenshotArtifactsFromResultJson with its loop over the results array. */
  method CleanupScreenshotArtifacts(f: ResultFile, dirs: Dirs, render: Json -> string) returns (deleted: seq<string>)
    ensures deleted == ScreenshotArtifacts(f, dirs.resultsRoot, dirs.fullPath, dirs.separator, render)
  {
    deleted := [];
    if f.path == "" || f.text == "" || f.decoded.Failure? || !HasKey(f.decoded.value, "results") {
      return;
    }
    var results := f.decoded.value.fields["results"];
    if !results.JArray? {
      return;
    }
    var i := 0;
    while i < |results.items|
      invariant 0 <= i <= |results.items|
      invariant ScreenshotScan(results.items[..i], dirs.resultsRoot, dirs.fullPath, dirs.separator, render) == Scan(deleted, false)
    {
      ScreenshotTargetsStep(results.items, i, dirs.resultsRoot, dirs.fullPath, dirs.separator, render);
      var entry := ScreenshotImage(results.items[i], render);
      if entry.Throws? {
        ThrowStopsScan(results.items, i, dirs.resultsRoot, dirs.fullPath, dirs.separator, render);
        return;
      }
      if entry.Image? {
        var target := ScreenshotTarget(entry.path, dirs.resultsRoot, dirs.fullPath, dirs.separator);
        if target.Some? {
          deleted := deleted + [target.value];
        }
      }
      i := i + 1;
    }
    assert results.items[..|results.items|] == results.items;
  }

  /** CleanupOldResults: the deletions it performs, in order. */
  method CleanupOldResults(w: Writer, dirExists: bool, files: seq<ResultFile>, dirs: Dirs, render: Json -> string)
    returns (deleted: seq<Deletion>)
    ensures deleted == Retention(w, dirExists, files, dirs, render)
  {
    deleted := [];
    if !dirExists {
      return;
    }
    var finals := CollectFinals(files, render);
    if |finals| <= MaxResults {
      return;
    }
    finals := SortFiles(finals);
    deleted := DeleteOldest(w, finals, |finals| - MaxResults, dirs, render);
  }

  /** The deletion loop of CleanupOldResults: each of the oldest results with its archive and screenshots. */
  method DeleteOldest(w: Writer, finals: seq<ResultFile>, toDelete: nat, dirs: Dirs, render: Json -> string)
    returns (deleted: seq<Deletion>)
    requires toDelete <= |finals|
    ensures deleted == Deletions(w, finals[..toDelete], dirs, render)
  {
    deleted := [];
    var i := 0;
    while i < toDelete
      invariant 0 <= i <= toDelete
      invariant deleted == Deletions(w, finals[..i], dirs, render)
    {
      DeletionsStep(w, finals, i, dirs, render);
      var d := DeleteResult(w, finals[i], dirs, render);
      deleted := deleted + [d];
      i := i + 1;
    }
  }

  /** One old result: its screenshots (UnityAgentSkills only), the result file and its archived batch. */
  method DeleteResult(w: Writer, f: ResultFile, dirs: Dirs, render: Json -> string) returns (d: Deletion)
    ensures d == DeletionOf(w, f, dirs, render)
  {
    var shots: seq<string> := [];
    if w == SkillsWriter {
      shots := CleanupScreenshotArtifacts(f, dirs, render);
    }
    var donePath := Screenshot.PathCombine(dirs.doneDir, FileNameWithoutExtension(f.path) + ".json");
    d := Deletion(f.path, donePath, shots);
  }

  /** The record WriteErrorAndArchive writes: error status, no commands, the error itself. */
  datatype ErrorResult = ErrorResult(batchId: string, status: string, results: seq<BatchExecutor.BatchCommandResult>,
                                     totalCommands: nat, successCount: nat, failedCount: nat, error: CommandError)

  /** What WriteErrorAndArchive does: the record, the results file it goes to and the archive move. */
  datatype ErrorWrite = ErrorWrite(result: ErrorResult, resultPath: string, archivedTo: Option<string>, deleted: seq<Deletion>)

  /** ArchivePending: the pending file moves to the done directory under its own name, if it exists. */
  function ArchiveTarget(pendingFilePath: string, pendingExists: bool, doneDir: string): (r: Option<string>)
    ensures r.Some? <==> pendingExists
    ensures r.Some? ==> EndsWith(r.value, FileName(pendingFilePath))
  {
    if !pendingExists then None else Some(Screenshot.PathCombine(doneDir, FileName(pendingFilePath)))
  }

  /** The results file a result with this batch id is written to. */
  function ResultPath(resultsRoot: string, batchId: string): string
  {
    Screenshot.PathCombine(resultsRoot, batchId + ".json")
  }

  /** WriteErrorAndArchive, after the write: cleanup, then the archive of an existing, named pending file. */
  function WriteErrorAndArchive(w: Writer, batchId: NullableString, pendingFilePath: NullableString, pendingExists: bool,
                                code: string, message: string, detail: NullableString,
                                dirExists: bool, files: seq<ResultFile>, dirs: Dirs, render: Json -> string): (r: ErrorWrite)
    ensures r.result.status == ErrorStatus && r.result.results == [] && r.result.batchId == OrEmpty(batchId)
    ensures r.result.totalCommands == 0 && r.result.successCount == 0 && r.result.failedCount == 0
    ensures r.result.error == CommandError(code, message, detail)
    ensures r.archivedTo.Some? <==> pendingFilePath.Some? && pendingFilePath.value != "" && pendingExists
  {
    var result := ErrorResult(OrEmpty(batchId), ErrorStatus, [], 0, 0, 0, CommandError(code, message, detail));
    var archived := if pendingFilePath.None? || pendingFilePath.value == "" then None
                    else ArchiveTarget(pendingFilePath.value, pendingExists, dirs.doneDir);
    ErrorWrite(result, ResultPath(dirs.resultsRoot, result.batchId), archived, Retention(w, dirExists, files, dirs, render))
  }

  /**
   * The plugins report a batch file they could not read with no batch id, so every such
   * report goes to the same results file ".json", whatever the pending file was called.
   */
  lemma UnreadableBatchesShareResultFile(w: Writer, pending1: string, pending2: string, pendingExists: bool, code: string, message: string,
                                         detail: NullableString, dirExists: bool, files: seq<ResultFile>, dirs: Dirs, render: Json -> string)
    requires pending1 != pending2
    ensures var r1 := WriteErrorAndArchive(w, None, Some(pending1), pendingExists, code, message, detail, dirExists, files, dirs, render);
            var r2 := WriteErrorAndArchive(w, None, Some(pending2), pendingExists, code, message, detail, dirExists, files, dirs, render);
            r1.resultPath == r2.resultPath == ResultPath(dirs.resultsRoot, "")
  {
  }
}
