// The log.query command (UnitySkills/AgentCommands/Plugins/Log/Handlers/
// LogQueryCommandHandler.cs and its older copy under Handlers/): read the
// parameters, reject a malformed regular expression up front, query the log
// cache and render the entries. The two copies differ only in the match mode
// a keyword gets when none is given: Fuzzy in the plugin, Strict in the older one.
module LogQuery {
  import opened Wrappers
  import opened Text
  import opened JsonValues
  import opened Commands
  import Logs

  const CommandType := "log.query"

  /** The match mode of a keyword given without one, in the plugin handler. */
  const PluginDefaultMode := "Fuzzy"
  /** The same default in the older handler. */
  const LegacyDefaultMode := "Strict"

  predicate IsNullOrEmpty(s: NullableString)
  {
    s.None? || s.value == ""
  }

  datatype QueryArgs = QueryArgs(n: int, level: NullableString, keyword: NullableString,
                                 matchMode: NullableString, includeStack: bool)

  /**
   * The parameters in the order the handler reads them; the first reader that throws
   * decides. A non-empty keyword without a match mode gets `defaultMode`.
   */
  function ReadArgs(defaultMode: string, rawParams: Json, render: Json -> string): (r: Result<QueryArgs, Exception>)
    ensures GetInt(rawParams, "n").Failure? ==> r == Failure(GetInt(rawParams, "n").error)
    ensures r.Success? ==>
              && GetInt(rawParams, "n") == Success(r.value.n)
              && GetString(rawParams, "level", None, render) == Success(r.value.level)
              && GetString(rawParams, "keyword", None, render) == Success(r.value.keyword)
              && GetBool(rawParams, "includeStack", false) == Success(r.value.includeStack)
    ensures r.Success? ==>
              var given := GetString(rawParams, "matchMode", None, render);
              given.Success? &&
              r.value.matchMode == if !IsNullOrEmpty(r.value.keyword) && IsNullOrEmpty(given.value) then Some(defaultMode) else given.value
    ensures r.Failure? <==>
              GetInt(rawParams, "n").Failure? || GetString(rawParams, "level", None, render).Failure?
              || GetString(rawParams, "keyword", None, render).Failure? || GetString(rawParams, "matchMode", None, render).Failure?
              || GetBool(rawParams, "includeStack", false).Failure?
  {
    match GetInt(rawParams, "n")
    case Failure(e) => Failure(e)
    case Success(n) =>
      match GetString(rawParams, "level", None, render)
      case Failure(e) => Failure(e)
      case Success(level) =>
        match GetString(rawParams, "keyword", None, render)
        case Failure(e) => Failure(e)
        case Success(keyword) =>
          match GetString(rawParams, "matchMode", None, render)
          case Failure(e) => Failure(e)
          case Success(matchMode) =>
            match GetBool(rawParams, "includeStack", false)
            case Failure(e) => Failure(e)
            case Success(includeStack) =>
              var mode := if !IsNullOrEmpty(keyword) && IsNullOrEmpty(matchMode) then Some(defaultMode) else matchMode;
              Success(QueryArgs(n, level, keyword, mode, includeStack))
  }

  /** One rendered entry: time, level and message, and the stack only when asked for. */
  function ItemJson(e: Logs.LogEntry, includeStack: bool): (j: Json)
    ensures j.JObject? && j.fields.Keys == if includeStack then {"time", "level", "message", "stack"} else {"time", "level", "message"}
    ensures j.fields["time"] == JString(e.time) && j.fields["level"] == JString(e.level) && j.fields["message"] == JString(e.message)
    ensures includeStack ==> j.fields["stack"] == JString(e.stack)
  {
    var item := map["time" := JString(e.time), "level" := JString(e.level), "message" := JString(e.message)];
    if includeStack then JObject(item["stack" := JString(e.stack)]) else JObject(item)
  }

  function ItemsJson(items: seq<Logs.LogEntry>, includeStack: bool): (r: seq<Json>)
    ensures |r| == |items|
    ensures forall k :: 0 <= k < |items| ==> r[k] == ItemJson(items[k], includeStack)
  {
    seq(|items|, k requires 0 <= k < |items| => ItemJson(items[k], includeStack))
  }

  /** The result object for the entries a query returned. */
  function ResultJson(items: seq<Logs.LogEntry>, includeStack: bool, totalCaptured: nat): Json
  {
    JObject(map["items" := JArray(ItemsJson(items, includeStack)),
                "totalCaptured" := JInt(totalCaptured),
                "returned" := JInt(|items|)])
  }

  /** The exception a rejected pattern becomes: InvalidOperationException prefixed INVALID_REGEX. */
  function InvalidRegexException(message: string): (e: Exception)
    ensures e.kind == InvalidOperationException && StartsWith(e.message, InvalidRegexCode + ":")
    ensures e.message[|InvalidRegexCode + ":"|..] == message
  {
    Exception(InvalidOperationException, InvalidRegexCode + ":" + message)
  }

  /** What Execute returns, given the cached entries `logs`. */
  function Response(defaultMode: string, rawParams: Json, logs: seq<Logs.LogEntry>, render: Json -> string,
                    compile: Logs.RegexCompiler): Result<Json, Exception>
  {
    match ReadArgs(defaultMode, rawParams, render)
    case Failure(e) => Failure(e)
    case Success(a) =>
      if a.matchMode == Some("Regex") && !IsNullOrEmpty(a.keyword) && compile(a.keyword.value).Failure? then
        Failure(InvalidRegexException(compile(a.keyword.value).error))
      else
        match Logs.QueryResult(logs, a.n, a.level, a.keyword, a.matchMode, a.includeStack, compile)
        case Failure(e) => Failure(e)
        case Success(items) => Success(ResultJson(items, a.includeStack, |logs|))
  }

  /** Once the handler's own regex check passes, the cache query cannot throw. */
  lemma QueryNeverRejects(defaultMode: string, rawParams: Json, logs: seq<Logs.LogEntry>, render: Json -> string, compile: Logs.RegexCompiler)
    requires ReadArgs(defaultMode, rawParams, render).Success?
    ensures var a := ReadArgs(defaultMode, rawParams, render).value;
            !(a.matchMode == Some("Regex") && !IsNullOrEmpty(a.keyword) && compile(a.keyword.value).Failure?) ==>
              Logs.QueryResult(logs, a.n, a.level, a.keyword, a.matchMode, a.includeStack, compile).Success?
  {
  }

  /**
   * A successful response counts what it returns and what the cache holds, returns at most
   * `n` entries when `n` is positive, and carries each entry's stack exactly when asked.
   */
  lemma ResponseShape(defaultMode: string, rawParams: Json, logs: seq<Logs.LogEntry>, render: Json -> string, compile: Logs.RegexCompiler)
    requires Response(defaultMode, rawParams, logs, render, compile).Success?
    ensures var j := Response(defaultMode, rawParams, logs, render, compile).value;
            var a := ReadArgs(defaultMode, rawParams, render).value;
            && j.JObject? && j.fields.Keys == {"items", "totalCaptured", "returned"}
            && j.fields["totalCaptured"] == JInt(|logs|)
            && j.fields["items"].JArray?
            && j.fields["returned"] == JInt(|j.fields["items"].items|)
            && (a.n > 0 ==> |j.fields["items"].items| <= a.n)
            && (forall k :: 0 <= k < |j.fields["items"].items| ==>
                  j.fields["items"].items[k].JObject? && ("stack" in j.fields["items"].items[k].fields <==> a.includeStack))
  {
    var a := ReadArgs(defaultMode, rawParams, render).value;
    var items := Logs.QueryResult(logs, a.n, a.level, a.keyword, a.matchMode, a.includeStack, compile).value;
    assert Response(defaultMode, rawParams, logs, render, compile).value == ResultJson(items, a.includeStack, |logs|);
    ResultJsonShape(items, a.includeStack, |logs|);
  }

  /** The result object lists one rendered entry per returned entry, with its stack exactly when asked. */
  lemma ResultJsonShape(items: seq<Logs.LogEntry>, includeStack: bool, totalCaptured: nat)
    ensures var j := ResultJson(items, includeStack, totalCaptured);
            && j.JObject? && j.fields.Keys == {"items", "totalCaptured", "returned"}
            && j.fields["totalCaptured"] == JInt(totalCaptured)
            && j.fields["items"].JArray? && |j.fields["items"].items| == |items|
            && j.fields["returned"] == JInt(|items|)
            && (forall k :: 0 <= k < |j.fields["items"].items| ==>
                  j.fields["items"].items[k].JObject? && ("stack" in j.fields["items"].items[k].fields <==> includeStack))
  {
    var arr := ItemsJson(items, includeStack);
    forall k | 0 <= k < |arr|
      ensures arr[k].JObject? && ("stack" in arr[k].fields <==> includeStack)
    {
      assert arr[k] == ItemJson(items[k], includeStack);
    }
  }

  /** A Regex-mode keyword the engine rejects is reported as INVALID_REGEX with the engine's message. */
  lemma InvalidRegexReported(defaultMode: string, rawParams: Json, logs: seq<Logs.LogEntry>, render: Json -> string, compile: Logs.RegexCompiler)
    requires ReadArgs(defaultMode, rawParams, render).Success?
    requires var a := ReadArgs(defaultMode, rawParams, render).value;
             a.matchMode == Some("Regex") && !IsNullOrEmpty(a.keyword) && compile(a.keyword.value).Failure?
    ensures var a := ReadArgs(defaultMode, rawParams, render).value;
            Response(defaultMode, rawParams, logs, render, compile) == Failure(InvalidRegexException(compile(a.keyword.value).error))
  {
  }

  /** A missing `n` is an INVALID_FIELDS error, whatever else is given. */
  lemma MissingCountRejected(defaultMode: string, rawParams: Json, logs: seq<Logs.LogEntry>, render: Json -> string, compile: Logs.RegexCompiler)
    requires !HasKey(rawParams, "n")
    ensures Response(defaultMode, rawParams, logs, render, compile)
            == Failure(Exception(ArgumentException, InvalidFieldsCode + ": Missing int param: " + "n"))
  {
    assert !Has(rawParams, "n");
  }

  /** The two handlers agree whenever the request names a match mode. */
  lemma ExplicitModeAgrees(rawParams: Json, logs: seq<Logs.LogEntry>, render: Json -> string, compile: Logs.RegexCompiler)
    requires GetString(rawParams, "matchMode", None, render).Success?
    requires !IsNullOrEmpty(GetString(rawParams, "matchMode", None, render).value)
    ensures Response(PluginDefaultMode, rawParams, logs, render, compile) == Response(LegacyDefaultMode, rawParams, logs, render, compile)
  {
    assert ReadArgs(PluginDefaultMode, rawParams, render) == ReadArgs(LegacyDefaultMode, rawParams, render);
  }

  /** Without a match mode, a keyword is matched ignoring case by the plugin handler and ordinally by the older one. */
  lemma DefaultModes(rawParams: Json, render: Json -> string)
    requires ReadArgs(PluginDefaultMode, rawParams, render).Success?
    requires !IsNullOrEmpty(ReadArgs(PluginDefaultMode, rawParams, render).value.keyword)
    requires GetString(rawParams, "matchMode", None, render) == Success(None)
    ensures ReadArgs(PluginDefaultMode, rawParams, render).value.matchMode == Some("Fuzzy")
    ensures ReadArgs(LegacyDefaultMode, rawParams, render).value.matchMode == Some("Strict")
  {
  }

  /** The foreach of Execute: one rendered object per entry, in order. */
  method RenderItems(items: seq<Logs.LogEntry>, includeStack: bool) returns (arr: seq<Json>)
    ensures arr == ItemsJson(items, includeStack)
  {
    arr := [];
    var i := 0;
    while i < |items|
      invariant 0 <= i <= |items|
      invariant arr == ItemsJson(items[..i], includeStack)
    {
      arr := arr + [ItemJson(items[i], includeStack)];
      i := i + 1;
    }
    assert items[..i] == items;
  }

  /** Execute: the handler run against the process-wide cache. */
  method Execute(defaultMode: string, rawParams: Json, cache: Logs.LogCache, render: Json -> string, compile: Logs.RegexCompiler)
    returns (r: Result<Json, Exception>)
    ensures r == Response(defaultMode, rawParams, cache.logs, render, compile)
  {
    var args := ReadArgs(defaultMode, rawParams, render);
    if args.Failure? {
      return Failure(args.error);
    }
    var a := args.value;
    if a.matchMode == Some("Regex") && !IsNullOrEmpty(a.keyword) {
      var compiled := compile(a.keyword.value);
      if compiled.Failure? {
        return Failure(InvalidRegexException(compiled.error));
      }
    }
    var queried := cache.Query(a.n, a.level, a.keyword, a.matchMode, a.includeStack, compile);
    if queried.Failure? {
      return Failure(queried.error);
    }
    var items := queried.value;
    var arr := RenderItems(items, a.includeStack);
    return Success(JObject(map["items" := JArray(arr), "totalCaptured" := JInt(cache.Count()), "returned" := JInt(|items|)]));
  }
}
