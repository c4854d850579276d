// The Unity log cache (UnitySkills/AgentCommands/Core/LogCache.cs): a bounded
// list of captured log entries, oldest first, and the query that filters it
// by level and keyword and keeps the most recent matches. The regular
// expression engine is an input: `compile` either yields a matcher or the
// message of the ArgumentException the Regex constructor throws.
module Logs {
  import opened Wrappers
  import opened Text
  import opened Seqs
  import Commands

  /** Unity's LogType. */
  datatype LogType = Error | Assert | Warning | Log | Exception

  /** The most entries the cache keeps. */
  const MaxCached := 10000

  datatype LogEntry = LogEntry(time: string, level: string, message: string, stack: string)

  /** Compiles a pattern: a matcher, or the message of the exception the constructor throws. */
  type RegexCompiler = string -> Result<string -> bool, string>

  /** MapLevel: the protocol level of a Unity log type. */
  function MapLevel(t: LogType): (r: string)
    ensures r == "Warning" <==> t == Warning
    ensures r == "Error" <==> t == Error || t == Exception || t == Assert
    ensures r == "Log" <==> t == Log
  {
    match t
    case Warning => "Warning"
    case Error | Exception | Assert => "Error"
    case Log => "Log"
  }

  /** The entry HandleLog records: a null text or stack becomes "". */
  function NewEntry(time: string, logString: Commands.NullableString, stackTrace: Commands.NullableString, t: LogType): (e: LogEntry)
    ensures e.level == MapLevel(t)
    ensures logString.Some? ==> e.message == logString.value
    ensures stackTrace.Some? ==> e.stack == stackTrace.value
    ensures logString.None? ==> e.message == ""
    ensures stackTrace.None? ==> e.stack == ""
  {
    LogEntry(time, MapLevel(t), Commands.OrEmpty(logString), Commands.OrEmpty(stackTrace))
  }

  /** The cached list after adding `e`: the oldest entry goes once there are more than MaxCached. */
  function Appended(logs: seq<LogEntry>, e: LogEntry): (r: seq<LogEntry>)
    requires |logs| <= MaxCached
    ensures |r| <= MaxCached
    ensures |r| > 0 && r[|r| - 1] == e
    ensures |logs| < MaxCached ==> r == logs + [e]
    ensures |logs| == MaxCached ==> r == logs[1..] + [e]
  {
    var added := logs + [e];
    if |added| > MaxCached then
      assert added[1..] == logs[1..] + [e];
      added[1..]
    else added
  }

  /** Adding entries one after another keeps the most recent MaxCached of them, in order. */
  lemma {:induction false} AppendedKeepsRecent(logs: seq<LogEntry>, e: LogEntry)
    requires |logs| <= MaxCached
    ensures var all := logs + [e]; Appended(logs, e) == all[|all| - |Appended(logs, e)|..]
    ensures |Appended(logs, e)| == if |logs| < MaxCached then |logs| + 1 else MaxCached
  {
    var all := logs + [e];
    if |logs| == MaxCached {
      assert all[1..] == logs[1..] + [e];
    }
  }

  /** The level filter: applied only when a non-empty level is given, and then by exact comparison. */
  predicate LevelPasses(e: LogEntry, level: Commands.NullableString)
  {
    level.None? || level.value == "" || e.level == level.value
  }

  /**
   * The keyword test of one mode: Fuzzy ignores case, Regex asks the matcher,
   * anything else is ordinal containment. The stack counts only with includeStack.
   */
  predicate KeywordMatches(e: LogEntry, keyword: string, mode: string, includeStack: bool, matcher: string -> bool)
  {
    if mode == "Fuzzy" then ContainsIgnoreCase(e.message, keyword) || (includeStack && ContainsIgnoreCase(e.stack, keyword))
    else if mode == "Regex" then matcher(e.message) || (includeStack && matcher(e.stack))
    else Contains(e.message, keyword) || (includeStack && Contains(e.stack, keyword))
  }

  /** The keyword filter: applied only when a non-empty keyword is given. */
  predicate KeywordPasses(e: LogEntry, keyword: Commands.NullableString, mode: string, includeStack: bool, matcher: string -> bool)
  {
    keyword.None? || keyword.value == "" || KeywordMatches(e, keyword.value, mode, includeStack, matcher)
  }

  function LevelFilter(level: Commands.NullableString): LogEntry -> bool
  {
    e => LevelPasses(e, level)
  }

  function KeywordFilter(keyword: Commands.NullableString, mode: string, includeStack: bool, matcher: string -> bool): LogEntry -> bool
  {
    e => KeywordPasses(e, keyword, mode, includeStack, matcher)
  }

  /** The matcher the Regex mode uses; any other mode never consults it. */
  function Matcher(keyword: Commands.NullableString, mode: string, compile: RegexCompiler): string -> bool
  {
    if mode == "Regex" && keyword.Some? && keyword.value != "" && compile(keyword.value).Success? then compile(keyword.value).value
    else (s: string) => false
  }

  /** The last `n` entries of `s` when `n` is positive and `s` is longer; otherwise all of `s`. */
  function Recent(s: seq<LogEntry>, n: int): (r: seq<LogEntry>)
    ensures |r| <= |s| && s[|s| - |r|..] == r
    ensures n <= 0 || |s| <= n ==> r == s
    ensures n > 0 ==> |r| == if |s| < n then |s| else n
  {
    if n > 0 && |s| > n then s[|s| - n..] else s
  }

  /** The cached entries that pass both filters, oldest first. */
  function Matches(logs: seq<LogEntry>, level: Commands.NullableString, keyword: Commands.NullableString,
                   mode: string, includeStack: bool, compile: RegexCompiler): seq<LogEntry>
  {
    Filter(Filter(logs, LevelFilter(level)), KeywordFilter(keyword, mode, includeStack, Matcher(keyword, mode, compile)))
  }

  /** Whether Query throws: the Regex mode with a non-empty keyword the engine rejects. */
  predicate RegexRejected(keyword: Commands.NullableString, mode: string, compile: RegexCompiler)
  {
    mode == "Regex" && keyword.Some? && keyword.value != "" && compile(keyword.value).Failure?
  }

  /** What Query returns for the cached entries `logs`. A null match mode means Strict. */
  function QueryResult(logs: seq<LogEntry>, n: int, level: Commands.NullableString, keyword: Commands.NullableString,
                       matchMode: Commands.NullableString, includeStack: bool, compile: RegexCompiler)
    : Result<seq<LogEntry>, Commands.Exception>
  {
    var mode := matchMode.GetOr("Strict");
    if RegexRejected(keyword, mode, compile) then
      Failure(Commands.Exception(Commands.ArgumentException, compile(keyword.value).error))
    else
      Success(Recent(Matches(logs, level, keyword, mode, includeStack, compile), if n < 0 then 0 else n))
  }

  /** Every returned entry is cached and passes both filters. */
  lemma QueryMembers(logs: seq<LogEntry>, n: int, level: Commands.NullableString, keyword: Commands.NullableString,
                     matchMode: Commands.NullableString, includeStack: bool, compile: RegexCompiler, e: LogEntry)
    requires QueryResult(logs, n, level, keyword, matchMode, includeStack, compile).Success?
    requires e in QueryResult(logs, n, level, keyword, matchMode, includeStack, compile).value
    ensures var mode := matchMode.GetOr("Strict");
            e in logs && LevelPasses(e, level) && KeywordPasses(e, keyword, mode, includeStack, Matcher(keyword, mode, compile))
  {
    var mode := matchMode.GetOr("Strict");
    var lf := LevelFilter(level);
    var kf := KeywordFilter(keyword, mode, includeStack, Matcher(keyword, mode, compile));
    var matched := Matches(logs, level, keyword, mode, includeStack, compile);
    var r := Recent(matched, if n < 0 then 0 else n);
    assert e in matched by {
      var k :| 0 <= k < |r| && r[k] == e;
      assert matched[|matched| - |r| + k] == e;
    }
    FilterMembers(logs, lf);
    FilterMembers(Filter(logs, lf), kf);
  }

  /** With `n` not positive, or no more matches than `n`, every matching cached entry is returned. */
  lemma QueryComplete(logs: seq<LogEntry>, n: int, level: Commands.NullableString, keyword: Commands.NullableString,
                      matchMode: Commands.NullableString, includeStack: bool, compile: RegexCompiler, e: LogEntry)
    requires !RegexRejected(keyword, matchMode.GetOr("Strict"), compile)
    requires var mode := matchMode.GetOr("Strict");
             e in logs && LevelPasses(e, level) && KeywordPasses(e, keyword, mode, includeStack, Matcher(keyword, mode, compile))
    requires n <= 0 || |Matches(logs, level, keyword, matchMode.GetOr("Strict"), includeStack, compile)| <= n
    ensures QueryResult(logs, n, level, keyword, matchMode, includeStack, compile).Success?
    ensures e in QueryResult(logs, n, level, keyword, matchMode, includeStack, compile).value
  {
    var mode := matchMode.GetOr("Strict");
    var lf := LevelFilter(level);
    var kf := KeywordFilter(keyword, mode, includeStack, Matcher(keyword, mode, compile));
    FilterMembers(logs, lf);
    FilterMembers(Filter(logs, lf), kf);
  }

  /** The Fuzzy mode finds a keyword in any letter case; the Strict mode only in its own case. */
  lemma FuzzyIgnoresCase(e: LogEntry, keyword: string, includeStack: bool, matcher: string -> bool)
    ensures KeywordMatches(e, keyword, "Fuzzy", includeStack, matcher) == KeywordMatches(e, Lower(keyword), "Fuzzy", includeStack, matcher)
    ensures KeywordMatches(e, keyword, "Strict", includeStack, matcher) ==> KeywordMatches(e, keyword, "Fuzzy", includeStack, matcher)
  {
    LowerIdempotent(keyword);
    if Contains(e.message, keyword) {
      ContainsLowered(e.message, keyword);
    }
    if includeStack && Contains(e.stack, keyword) {
      ContainsLowered(e.stack, keyword);
    }
  }

  lemma LowerIdempotent(s: string)
    ensures Lower(Lower(s)) == Lower(s)
  {
  }

  /** Lower-casing both sides keeps an occurrence. */
  lemma ContainsLowered(s: string, sub: string)
    requires Contains(s, sub)
    ensures Contains(Lower(s), Lower(sub))
  {
    var k :| 0 <= k <= |s| - |sub| && OccursAt(s, sub, k);
    var ls, lsub := Lower(s), Lower(sub);
    forall i | 0 <= i < |sub|
      ensures ls[k + i] == lsub[i]
    {
      assert s[k + i] == s[k..k + |sub|][i] == sub[i];
    }
    assert ls[k..k + |sub|] == lsub;
    assert OccursAt(ls, lsub, k);
  }

  /** One more entry through two filters in a row. */
  lemma FilterTwiceSnoc(s: seq<LogEntry>, e: LogEntry, p: LogEntry -> bool, q: LogEntry -> bool)
    ensures Filter(Filter(s + [e], p), q) == Filter(Filter(s, p), q) + (if p(e) && q(e) then [e] else [])
  {
    FilterSnoc(s, e, p);
    if p(e) {
      assert Filter(s + [e], p) == Filter(s, p) + [e];
      FilterSnoc(Filter(s, p), e, q);
    } else {
      assert Filter(s + [e], p) == Filter(s, p) + [];
      assert Filter(s, p) + [] == Filter(s, p);
    }
  }

  /** One loop step of CollectMatches: entry i joins the matches exactly when it passes both filters. */
  lemma CollectStep(entries: seq<LogEntry>, i: nat, p: LogEntry -> bool, q: LogEntry -> bool)
    requires i < |entries|
    ensures p(entries[i]) && q(entries[i]) ==>
              Filter(Filter(entries[..i + 1], p), q) == Filter(Filter(entries[..i], p), q) + [entries[i]]
    ensures !(p(entries[i]) && q(entries[i])) ==>
              Filter(Filter(entries[..i + 1], p), q) == Filter(Filter(entries[..i], p), q)
  {
    assert entries[..i + 1] == entries[..i] + [entries[i]];
    FilterTwiceSnoc(entries[..i], entries[i], p, q);
    assert Filter(Filter(entries[..i], p), q) + [] == Filter(Filter(entries[..i], p), q);
  }

  /** The foreach of Query: the entries passing the level filter and then the keyword filter, in order. */
  method CollectMatches(entries: seq<LogEntry>, level: Commands.NullableString, keyword: Commands.NullableString,
                        mode: string, includeStack: bool, matcher: string -> bool)
    returns (filtered: seq<LogEntry>)
    ensures filtered == Filter(Filter(entries, LevelFilter(level)), KeywordFilter(keyword, mode, includeStack, matcher))
  {
    ghost var lf := LevelFilter(level);
    ghost var kf := KeywordFilter(keyword, mode, includeStack, matcher);
    filtered := [];
    var i := 0;
    while i < |entries|
      invariant 0 <= i <= |entries|
      invariant filtered == Filter(Filter(entries[..i], lf), kf)
    {
      var e := entries[i];
      CollectStep(entries, i, lf, kf);
      if LevelPasses(e, level) && KeywordPasses(e, keyword, mode, includeStack, matcher) {
        filtered := filtered + [e];
      }
      i := i + 1;
    }
    assert entries[..i] == entries;
  }

  /** The process-wide cache Unity's log callback feeds. */
  class LogCache {
    /** The captured entries, oldest first. */
    var logs: seq<LogEntry>

    ghost predicate Valid()
      reads this
    {
      |logs| <= MaxCached
    }

    constructor ()
      ensures Valid() && logs == []
    {
      logs := [];
    }

    /** Count: the number of cached entries. */
    function Count(): nat
      reads this
    {
      |logs|
    }

    /** HandleLog: record one callback, dropping the oldest entry past MaxCached. */
    method HandleLog(time: string, logString: Commands.NullableString, stackTrace: Commands.NullableString, t: LogType)
      requires Valid()
      modifies this
      ensures Valid()
      ensures logs == Appended(old(logs), NewEntry(time, logString, stackTrace, t))
    {
      logs := logs + [LogEntry(time, MapLevel(t), Commands.OrEmpty(logString), Commands.OrEmpty(stackTrace))];
      if |logs| > MaxCached {
        logs := logs[1..];
      }
    }

    /** Query: the most recent `n` entries (all when `n` is not positive) passing the level and keyword filters. */
    method Query(n: int, level: Commands.NullableString, keyword: Commands.NullableString, matchMode: Commands.NullableString,
                 includeStack: bool, compile: RegexCompiler)
      returns (r: Result<seq<LogEntry>, Commands.Exception>)
      ensures r == QueryResult(logs, n, level, keyword, matchMode, includeStack, compile)
    {
      var count := if n < 0 then 0 else n;
      var mode := matchMode.GetOr("Strict");
      var matcher := Matcher(keyword, mode, compile);
      if RegexRejected(keyword, mode, compile) {
        return Failure(Commands.Exception(Commands.ArgumentException, compile(keyword.value).error));
      }
      var filtered := CollectMatches(logs, level, keyword, mode, includeStack, matcher);
      assert filtered == Matches(logs, level, keyword, mode, includeStack, compile);
      if count > 0 && |filtered| > count {
        filtered := filtered[|filtered| - count..];
      }
      r := Success(filtered);
    }
  }
}
