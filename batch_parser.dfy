// The batch-file reader (UnityAgentSkills/Core/BatchCommandParser.cs): the
// fields a pending batch file yields, and the checks a batch must pass before
// it runs. Reading the file and decoding its JSON are inputs; so is the
// ToString rendering of a non-string JSON value.
module BatchParser {
  import opened Wrappers
  import opened Text
  import opened JsonValues
  import opened Commands

  /** One command of a batch; `params` is JNull when it is missing or null. */
  datatype BatchCommand = BatchCommand(id: NullableString, commandType: NullableString, params: Json, timeout: Option<int>)

  /** A parsed batch; `commands` is None when the file has no commands array. */
  datatype BatchPendingCommand = BatchPendingCommand(batchId: NullableString, timeout: Option<int>,
                                                     commands: Option<seq<BatchCommand>>, fileTime: int)

  function InvalidJson(detail: string): Exception
  {
    Exception(ArgumentException, InvalidJsonCode + ": " + detail)
  }

  function InvalidFields(detail: string): (e: Exception)
    ensures e.kind == ArgumentException && StartsWith(e.message, InvalidFieldsCode + ": ")
  {
    Exception(ArgumentException, InvalidFieldsCode + ": " + detail)
  }

  const NullReference := Exception(NullReferenceException, NullReferenceMessage)

  /** JsonData.ToString on a field's value: the text of a string, `render` of anything else; a null throws. */
  function ValueText(v: Json, render: Json -> string): (r: Result<string, Exception>)
    ensures r.Failure? <==> v == JNull
    ensures r.Failure? ==> r.error == NullReference
    ensures v.JString? ==> r == Success(v.s)
  {
    if v == JNull then Failure(NullReference)
    else if v.JString? then Success(v.s)
    else Success(render(v))
  }

  /** A field read through ToString when present, null when absent. */
  function OptionalText(fields: map<string, Json>, key: string, render: Json -> string): (r: Result<NullableString, Exception>)
    ensures key !in fields ==> r == Success(None)
    ensures key in fields ==> r.Failure? == (fields[key] == JNull)
    ensures key in fields && fields[key].JString? ==> r == Success(Some(fields[key].s))
  {
    if key !in fields then Success(None)
    else match ValueText(fields[key], render)
      case Failure(e) => Failure(e)
      case Success(s) => Success(Some(s))
  }

  /** A timeout field: taken only when it holds an int; asking IsInt of a null throws. */
  function OptionalInt(fields: map<string, Json>, key: string): (r: Result<Option<int>, Exception>)
    ensures r.Success? && r.value.Some? <==> key in fields && fields[key].JInt?
    ensures r.Success? && r.value.Some? ==> r.value.value == fields[key].i
    ensures r.Failure? <==> key in fields && fields[key] == JNull
  {
    if key !in fields then Success(None)
    else if fields[key] == JNull then Failure(NullReference)
    else if fields[key].JInt? then Success(Some(fields[key].i))
    else Success(None)
  }

  /** One element of the commands array: objects become commands, other values are skipped, a null throws. */
  function ReadCommand(cmdJson: Json, render: Json -> string): (r: Result<Option<BatchCommand>, Exception>)
    ensures cmdJson == JNull ==> r == Failure(NullReference)
    ensures cmdJson != JNull && !cmdJson.JObject? ==> r == Success(None)
    ensures cmdJson.JObject? && r.Success? ==>
              && r.value.Some?
              && OptionalText(cmdJson.fields, "id", render) == Success(r.value.value.id)
              && OptionalText(cmdJson.fields, "type", render) == Success(r.value.value.commandType)
              && r.value.value.params == (if "params" in cmdJson.fields then cmdJson.fields["params"] else JNull)
              && OptionalInt(cmdJson.fields, "timeout") == Success(r.value.value.timeout)
  {
    if cmdJson == JNull then Failure(NullReference)
    else if !cmdJson.JObject? then Success(None)
    else
      var f := cmdJson.fields;
      match OptionalText(f, "id", render)
      case Failure(e) => Failure(e)
      case Success(id) =>
        match OptionalText(f, "type", render)
        case Failure(e) => Failure(e)
        case Success(t) =>
          match OptionalInt(f, "timeout")
          case Failure(e) => Failure(e)
          case Success(timeout) =>
            Success(Some(BatchCommand(id, t, if "params" in f then f["params"] else JNull, timeout)))
  }

  /** The commands read from the array elements in order; the first element that throws ends the read. */
  function ReadCommands(items: seq<Json>, render: Json -> string): (r: Result<seq<BatchCommand>, Exception>)
    ensures r.Success? ==> |r.value| <= |items|
    decreases |items|
  {
    if items == [] then Success([])
    else
      match ReadCommands(items[..|items| - 1], render)
      case Failure(e) => Failure(e)
      case Success(cs) =>
        match ReadCommand(items[|items| - 1], render)
        case Failure(e) => Failure(e)
        case Success(None) => Success(cs)
        case Success(Some(c)) => Success(cs + [c])
  }

  /** Once a prefix of the array throws, the whole read throws the same. */
  lemma {:induction false} ReadFailureSticks(items: seq<Json>, i: nat, render: Json -> string)
    requires i <= |items| && ReadCommands(items[..i], render).Failure?
    ensures ReadCommands(items, render) == ReadCommands(items[..i], render)
    decreases |items| - i
  {
    if i < |items| {
      assert items[..i + 1][..i] == items[..i];
      ReadFailureSticks(items, i + 1, render);
    } else {
      assert items[..i] == items;
    }
  }

  /** With no null elements the read succeeds and keeps exactly the object elements, in order. */
  lemma {:induction false} ObjectsKept(items: seq<Json>, render: Json -> string)
    requires forall k :: 0 <= k < |items| ==> items[k] != JNull
    requires forall k :: 0 <= k < |items| && items[k].JObject? ==> ReadCommand(items[k], render).Success?
    ensures ReadCommands(items, render).Success?
    ensures |ReadCommands(items, render).value| == CountObjects(items)
    decreases |items|
  {
    if items != [] {
      ObjectsKept(items[..|items| - 1], render);
    }
  }

  function CountObjects(items: seq<Json>): nat
    decreases |items|
  {
    if items == [] then 0 else CountObjects(items[..|items| - 1]) + (if items[|items| - 1].JObject? then 1 else 0)
  }

  /** The loop of Parse over the commands array. */
  method ParseCommands(items: seq<Json>, render: Json -> string) returns (r: Result<seq<BatchCommand>, Exception>)
    ensures r == ReadCommands(items, render)
  {
    var commands: seq<BatchCommand> := [];
    var i := 0;
    while i < |items|
      invariant 0 <= i <= |items|
      invariant ReadCommands(items[..i], render) == Success(commands)
    {
      assert items[..i + 1][..i] == items[..i];
      var c := ReadCommand(items[i], render);
      if c.Failure? {
        ReadFailureSticks(items, i + 1, render);
        return Failure(c.error);
      }
      if c.value.Some? {
        commands := commands + [c.value.value];
      }
      i := i + 1;
    }
    assert items[..i] == items;
    return Success(commands);
  }

  /** The batch a decoded root object yields. */
  function ParseRoot(root: Json, fileTime: int, render: Json -> string): (r: Result<BatchPendingCommand, Exception>)
    ensures !root.JObject? ==> r == Failure(InvalidJson("批量命令文件不是合法的json,请检查写入是否完整"))
    ensures r.Success? ==>
              && r.value.fileTime == fileTime
              && OptionalText(root.fields, "batchId", render) == Success(r.value.batchId)
              && OptionalInt(root.fields, "timeout") == Success(r.value.timeout)
              && (r.value.commands.Some? <==> "commands" in root.fields && root.fields["commands"].JArray?)
              && (r.value.commands.Some? ==> ReadCommands(root.fields["commands"].items, render) == Success(r.value.commands.value))
  {
    if !root.JObject? then Failure(InvalidJson("批量命令文件不是合法的json,请检查写入是否完整"))
    else
      var f := root.fields;
      match OptionalText(f, "batchId", render)
      case Failure(e) => Failure(e)
      case Success(batchId) =>
        match OptionalInt(f, "timeout")
        case Failure(e) => Failure(e)
        case Success(timeout) =>
          if "commands" !in f then Success(BatchPendingCommand(batchId, timeout, None, fileTime))
          else if f["commands"] == JNull then Failure(NullReference)
          else if !f["commands"].JArray? then Success(BatchPendingCommand(batchId, timeout, None, fileTime))
          else
            match ReadCommands(f["commands"].items, render)
            case Failure(e) => Failure(e)
            case Success(cs) => Success(BatchPendingCommand(batchId, timeout, Some(cs), fileTime))
  }

  /**
   * Parse: a missing file or undecodable JSON is INVALID_JSON; `decoded` is the
   * JSON reader's outcome, a value or the exception message.
   */
  method Parse(filePath: string, fileExists: bool, decoded: Result<Json, string>, fileTime: int, render: Json -> string)
    returns (r: Result<BatchPendingCommand, Exception>)
    ensures !fileExists ==> r == Failure(InvalidJson("文件不存在: " + filePath))
    ensures fileExists && decoded.Failure? ==> r == Failure(InvalidJson("JSON解析失败 - " + decoded.error))
    ensures fileExists && decoded.Success? ==> r == ParseRoot(decoded.value, fileTime, render)
  {
    if !fileExists {
      return Failure(InvalidJson("文件不存在: " + filePath));
    }
    if decoded.Failure? {
      return Failure(InvalidJson("JSON解析失败 - " + decoded.error));
    }
    var root := decoded.value;
    if !root.JObject? {
      return Failure(InvalidJson("批量命令文件不是合法的json,请检查写入是否完整"));
    }
    var f := root.fields;
    var batchId := OptionalText(f, "batchId", render);
    if batchId.Failure? {
      return Failure(batchId.error);
    }
    var timeout := OptionalInt(f, "timeout");
    if timeout.Failure? {
      return Failure(timeout.error);
    }
    var commands: Option<seq<BatchCommand>> := None;
    if "commands" in f {
      if f["commands"] == JNull {
        return Failure(NullReference);
      }
      if f["commands"].JArray? {
        var read := ParseCommands(f["commands"].items, render);
        if read.Failure? {
          return Failure(read.error);
        }
        commands := Some(read.value);
      }
    }
    return Success(BatchPendingCommand(batchId.value, timeout.value, commands, fileTime));
  }

  predicate IsNullOrEmpty(s: NullableString)
  {
    s.None? || s.value == ""
  }

  predicate IsBatchIdChar(c: char)
  {
    'a' <= c <= 'z' || 'A' <= c <= 'Z' || '0' <= c <= '9' || c == '_' || c == '-'
  }

  /** The batch ids the pattern ^[a-zA-Z0-9_-]+$ is meant to admit: letters, digits, '_' and '-' only. */
  predicate IsSafeBatchId(s: string)
  {
    |s| > 0 && forall k :: 0 <= k < |s| ==> IsBatchIdChar(s[k])
  }

  /**
   * What Regex.IsMatch(s, "^[a-zA-Z0-9_-]+$") accepts in .NET: without the Multiline
   * option `$` matches at the end and also just before a final newline.
   */
  predicate MatchesBatchIdPattern(s: string)
  {
    IsSafeBatchId(s) || (|s| > 1 && s[|s| - 1] == '\n' && IsSafeBatchId(s[..|s| - 1]))
  }

  /** The pattern as written lets a batch id ending in a newline through. */
  lemma TrailingNewlineAccepted()
    ensures MatchesBatchIdPattern("batch\n") && !IsSafeBatchId("batch\n")
  {
    assert "batch\n"[..5] == "batch";
    assert !IsBatchIdChar("batch\n"[5]);
  }

  /** The corrected check admits exactly the ids whose every character is allowed, and the pattern admits all of them. */
  lemma SafeBatchIdCharset(s: string)
    ensures IsSafeBatchId(s) ==> MatchesBatchIdPattern(s)
    ensures IsSafeBatchId(s) ==> '\n' !in s && '/' !in s && '.' !in s && '\\' !in s
  {
  }

  /** Every field a command must carry. */
  predicate CommandComplete(c: BatchCommand)
  {
    !IsNullOrEmpty(c.id) && !IsNullOrEmpty(c.commandType) && c.params != JNull
  }

  /** The exception for the first missing field of command number `i` (counted from 0). */
  function CommandError(i: nat, c: BatchCommand): (e: Exception)
    requires !CommandComplete(c)
    ensures e.kind == ArgumentException && StartsWith(e.message, InvalidFieldsCode + ": ")
  {
    if IsNullOrEmpty(c.id) then
      InvalidFields("命令缺少必填字段: id - 第 " + IntToString(i + 1) + " 个命令必须包含 id 字段")
    else if IsNullOrEmpty(c.commandType) then
      InvalidFields("命令缺少必填字段: type - 命令 id=" + c.id.value + " 必须包含 type 字段")
    else
      InvalidFields("命令缺少必填字段: params - 命令 id=" + c.id.value + " 必须包含 params 字段")
  }

  /** The check of the commands from index `i` on: the first incomplete one decides. */
  function CommandsError(cmds: seq<BatchCommand>, i: nat): (r: Option<Exception>)
    requires i <= |cmds|
    ensures r.None? <==> forall k :: i <= k < |cmds| ==> CommandComplete(cmds[k])
    ensures r.Some? ==> exists k :: i <= k < |cmds| && !CommandComplete(cmds[k]) && r == Some(CommandError(k, cmds[k]))
                                    && forall j :: i <= j < k ==> CommandComplete(cmds[j])
    decreases |cmds| - i
  {
    if i == |cmds| then None
    else if !CommandComplete(cmds[i]) then Some(CommandError(i, cmds[i]))
    else CommandsError(cmds, i + 1)
  }

  /**
   * Validate: None when the batch may run, else the ArgumentException it throws.
   * The batch id is checked with the source's pattern, MatchesBatchIdPattern, which also
   * admits one trailing newline.
   */
  function Validate(batch: Option<BatchPendingCommand>): (r: Option<Exception>)
    ensures r.None? <==>
              && batch.Some? && batch.value.batchId.Some? && MatchesBatchIdPattern(batch.value.batchId.value)
              && batch.value.commands.Some? && |batch.value.commands.value| > 0
              && forall k :: 0 <= k < |batch.value.commands.value| ==> CommandComplete(batch.value.commands.value[k])
    ensures r.Some? ==> r.value.kind == ArgumentException && StartsWith(r.value.message, InvalidFieldsCode + ": ")
    ensures batch.None? ==> r == Some(InvalidFields("批量命令为null"))
    ensures batch.Some? && IsNullOrEmpty(batch.value.batchId) ==>
              r == Some(InvalidFields("缺少必填字段: batchId - 输入 JSON 必须包含 batchId 字段"))
  {
    if batch.None? then Some(InvalidFields("批量命令为null"))
    else
      var b := batch.value;
      if IsNullOrEmpty(b.batchId) then Some(InvalidFields("缺少必填字段: batchId - 输入 JSON 必须包含 batchId 字段"))
      else if !MatchesBatchIdPattern(b.batchId.value) then
        Some(InvalidFields("batchId包含非法字符,仅允许字母数字下划线和短横线 - batchId=" + b.batchId.value))
      else if b.commands.None? || |b.commands.value| == 0 then
        Some(InvalidFields("命令数组不能为空 - commands 数组至少包含一个命令"))
      else CommandsError(b.commands.value, 0)
  }

  /** As written, a batch whose id ends in a newline passes validation and goes on to run. */
  lemma NewlineBatchValidated(cmds: seq<BatchCommand>, timeout: Option<int>, fileTime: int)
    requires |cmds| > 0 && forall k :: 0 <= k < |cmds| ==> CommandComplete(cmds[k])
    ensures Validate(Some(BatchPendingCommand(Some("batch\n"), timeout, Some(cmds), fileTime))).None?
  {
    TrailingNewlineAccepted();
  }

  /** ParseAndValidate: a parsed batch that also passes Validate. */
  method ParseAndValidate(filePath: string, fileExists: bool, decoded: Result<Json, string>, fileTime: int, render: Json -> string)
    returns (r: Result<BatchPendingCommand, Exception>)
    ensures r.Success? ==> Validate(Some(r.value)).None? && r.value.fileTime == fileTime
    ensures r.Success? ==> fileExists && decoded.Success? && ParseRoot(decoded.value, fileTime, render) == r
    ensures fileExists && decoded.Success? && ParseRoot(decoded.value, fileTime, render).Success? &&
            Validate(Some(ParseRoot(decoded.value, fileTime, render).value)).Some? ==>
              r == Failure(Validate(Some(ParseRoot(decoded.value, fileTime, render).value)).value)
    ensures !fileExists ==> r == Failure(InvalidJson("文件不存在: " + filePath))
    ensures fileExists && decoded.Failure? ==> r == Failure(InvalidJson("JSON解析失败 - " + decoded.error))
    ensures fileExists && decoded.Success? && ParseRoot(decoded.value, fileTime, render).Failure? ==>
              r == ParseRoot(decoded.value, fileTime, render)
    ensures fileExists && decoded.Success? && ParseRoot(decoded.value, fileTime, render).Success? &&
            Validate(Some(ParseRoot(decoded.value, fileTime, render).value)).None? ==>
              r == ParseRoot(decoded.value, fileTime, render)
  {
    var parsed := Parse(filePath, fileExists, decoded, fileTime, render);
    if parsed.Failure? {
      return parsed;
    }
    var invalid := Validate(Some(parsed.value));
    if invalid.Some? {
      return Failure(invalid.value);
    }
    return parsed;
  }
}
