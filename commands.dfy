// Command records shared by every handler: error codes and statuses, the
// exceptions handlers throw, the error factory, the result serialiser and the
// parameter readers (UnitySkills/AgentCommands/Core/AgentCommandModels.cs,
// CommandErrorFactory.cs and CommandParams.cs).
module Commands {
  import opened Wrappers
  import opened Text
  import opened JsonValues

  const InvalidJsonCode := "INVALID_JSON"
  const InvalidFieldsCode := "INVALID_FIELDS"
  const UnknownTypeCode := "UNKNOWN_TYPE"
  const InvalidRegexCode := "INVALID_REGEX"
  const RuntimeErrorCode := "RUNTIME_ERROR"
  /** The TIMEOUT and SKIPPED code texts are declared outside the modelled files. */
  const TimeoutCode: string
  const SkippedCode: string

  const ProcessingStatus := "processing"
  const SuccessStatus := "success"
  const ErrorStatus := "error"

  const MessageInvalidRegex := "正则表达式非法,请检查 keyword"
  const MessageUnknownType := "未知命令类型"
  const MessageInvalidFields := "命令字段缺失或非法"
  const MessagePrefabNotFound := "预制体未找到"
  const MessageGameObjectNotFound := "GameObject未找到"
  const MessageRuntimeError := "命令执行发生异常"
  const MessageTimeout := "命令执行超时"
  const MessageSkipped := "批次超时,命令未执行"

  const PrefabNotFoundPrefix := "Prefab not found at path: "
  const GameObjectNotFoundPrefix := "GameObject not found at path: "

  /** The .NET exception classes the command code throws or tells apart. */
  datatype ExceptionKind =
    | ArgumentException          // and its subclasses, such as ArgumentOutOfRangeException
    | InvalidOperationException
    | NotSupportedException
    | NullReferenceException
    | OtherException

  datatype Exception = Exception(kind: ExceptionKind, message: string)

  /** The message .NET gives a NullReferenceException; its text is not part of this model. */
  const NullReferenceMessage: string

  /** A C# string that may be null; null reads as "" wherever the code writes `?? ""`. */
  type NullableString = Option<string>

  function OrEmpty(s: NullableString): (r: string)
    ensures s.Some? ==> r == s.value
    ensures s.None? ==> r == ""
  {
    s.GetOr("")
  }

  /** CommandError: code, message and an optional detail. */
  datatype CommandError = CommandError(code: string, message: string, detail: NullableString)

  function CreateInvalidRegexError(detail: NullableString): (e: CommandError)
    ensures e.code == InvalidRegexCode && e.message == MessageInvalidRegex && e.detail == detail
  {
    CommandError(InvalidRegexCode, MessageInvalidRegex, detail)
  }

  /** The unknown-type message names the command type, with null read as "". */
  function CreateUnknownCommandError(commandType: NullableString, detail: NullableString): (e: CommandError)
    ensures e.code == UnknownTypeCode && e.detail == detail
    ensures StartsWith(e.message, MessageUnknownType + ": ")
    ensures e.message[|MessageUnknownType + ": "|..] == OrEmpty(commandType)
  {
    CommandError(UnknownTypeCode, MessageUnknownType + ": " + OrEmpty(commandType), detail)
  }

  function CreateInvalidFieldsError(detail: NullableString): (e: CommandError)
    ensures e.code == InvalidFieldsCode && e.message == MessageInvalidFields && e.detail == detail
  {
    CommandError(InvalidFieldsCode, MessageInvalidFields, detail)
  }

  /** A missing prefab is a RUNTIME_ERROR whose detail ends with the path. */
  function CreatePrefabNotFoundError(prefabPath: NullableString): (e: CommandError)
    ensures e.code == RuntimeErrorCode && e.message == MessagePrefabNotFound && e.detail.Some?
    ensures StartsWith(e.detail.value, PrefabNotFoundPrefix)
    ensures e.detail.value[|PrefabNotFoundPrefix|..] == OrEmpty(prefabPath)
  {
    CommandError(RuntimeErrorCode, MessagePrefabNotFound, Some(PrefabNotFoundPrefix + OrEmpty(prefabPath)))
  }

  /** A missing GameObject is a RUNTIME_ERROR whose detail ends with the path. */
  function CreateGameObjectNotFoundError(objectPath: NullableString): (e: CommandError)
    ensures e.code == RuntimeErrorCode && e.message == MessageGameObjectNotFound && e.detail.Some?
    ensures StartsWith(e.detail.value, GameObjectNotFoundPrefix)
    ensures e.detail.value[|GameObjectNotFoundPrefix|..] == OrEmpty(objectPath)
  {
    CommandError(RuntimeErrorCode, MessageGameObjectNotFound, Some(GameObjectNotFoundPrefix + OrEmpty(objectPath)))
  }

  function CreateRuntimeError(detail: NullableString): (e: CommandError)
    ensures e.code == RuntimeErrorCode && e.message == MessageRuntimeError && e.detail == detail
  {
    CommandError(RuntimeErrorCode, MessageRuntimeError, detail)
  }

  /** The timeout detail reports the elapsed and the allowed milliseconds. */
  function CreateTimeoutError(elapsedMs: int, timeoutMs: int): (e: CommandError)
    ensures e.code == TimeoutCode && e.message == MessageTimeout && e.detail.Some?
    ensures Contains(e.detail.value, IntToString(elapsedMs) + "ms") && Contains(e.detail.value, IntToString(timeoutMs) + "ms")
  {
    var d := "命令执行时间 " + (IntToString(elapsedMs) + "ms") + " 超过限制 " + (IntToString(timeoutMs) + "ms");
    PiecesContained("命令执行时间 ", IntToString(elapsedMs) + "ms", " 超过限制 ", IntToString(timeoutMs) + "ms");
    CommandError(TimeoutCode, MessageTimeout, Some(d))
  }

  /** A skipped command's detail reports the batch limit. */
  function CreateSkippedError(batchTimeoutMs: int): (e: CommandError)
    ensures e.code == SkippedCode && e.message == MessageSkipped && e.detail.Some?
    ensures Contains(e.detail.value, IntToString(batchTimeoutMs) + "ms")
  {
    var d := "批次执行时间超过限制 " + (IntToString(batchTimeoutMs) + "ms");
    InfixContained("批次执行时间超过限制 ", IntToString(batchTimeoutMs) + "ms", "");
    assert d + "" == d;
    CommandError(SkippedCode, MessageSkipped, Some(d))
  }

  /** CommandResult: every field may be null. */
  datatype CommandResult = CommandResult(
    id: NullableString, resultType: NullableString, status: NullableString,
    startedAt: NullableString, finishedAt: NullableString,
    error: Option<CommandError>, result: Json)

  predicate IsFinal(status: NullableString)
  {
    status == Some(SuccessStatus) || status == Some(ErrorStatus)
  }

  /** The error object of an error result; a null error gives empty code and message. */
  function ErrorJson(error: Option<CommandError>): (j: Json)
    ensures j.JObject? && "code" in j.fields && "message" in j.fields
    ensures "detail" in j.fields <==> error.Some? && error.value.detail.Some? && error.value.detail.value != ""
    ensures j.fields.Keys <= {"code", "message", "detail"}
  {
    var base := map["code" := JString(if error.Some? then OrEmpty(Some(error.value.code)) else ""),
                    "message" := JString(if error.Some? then OrEmpty(Some(error.value.message)) else "")];
    if error.Some? && error.value.detail.Some? && error.value.detail.value != "" then
      JObject(base["detail" := JString(error.value.detail.value)])
    else JObject(base)
  }

  /**
   * CommandResult.ToJsonData: id, type, status and startedAt always; finishedAt
   * for success and error; the error object for error only; the result (an
   * untyped JsonData when null) for success only.
   */
  function ToJsonData(r: CommandResult): (j: Json)
    ensures j.JObject?
    ensures {"id", "type", "status", "startedAt"} <= j.fields.Keys
    ensures j.fields["id"] == JString(OrEmpty(r.id)) && j.fields["type"] == JString(OrEmpty(r.resultType))
    ensures j.fields["status"] == JString(OrEmpty(r.status)) && j.fields["startedAt"] == JString(OrEmpty(r.startedAt))
    ensures "finishedAt" in j.fields <==> IsFinal(r.status)
    ensures "error" in j.fields <==> r.status == Some(ErrorStatus)
    ensures "result" in j.fields <==> r.status == Some(SuccessStatus)
    ensures "result" in j.fields ==> j.fields["result"] == if r.result == JNull then JUntyped else r.result
    ensures j.fields.Keys <= {"id", "type", "status", "startedAt", "finishedAt", "error", "result"}
  {
    var base := map["id" := JString(OrEmpty(r.id)), "type" := JString(OrEmpty(r.resultType)),
                    "status" := JString(OrEmpty(r.status)), "startedAt" := JString(OrEmpty(r.startedAt))];
    var withFinish := if IsFinal(r.status) then base["finishedAt" := JString(OrEmpty(r.finishedAt))] else base;
    var withError := if r.status == Some(ErrorStatus) then withFinish["error" := ErrorJson(r.error)] else withFinish;
    var withResult := if r.status == Some(SuccessStatus)
                      then withError["result" := if r.result == JNull then JUntyped else r.result]
                      else withError;
    JObject(withResult)
  }

  /** A processing result carries exactly the four always-present fields. */
  lemma ProcessingShape(r: CommandResult)
    requires r.status == Some(ProcessingStatus)
    ensures ToJsonData(r).fields.Keys == {"id", "type", "status", "startedAt"}
  {
  }

  /** CommandParams.Has: false for null and non-object data. */
  predicate Has(data: Json, key: string)
  {
    HasKey(data, key)
  }

  /** The conversions GetInt tries in turn; None when the value is not an int. */
  function IntValue(v: Json): (r: Option<int>)
    requires v != JNull
    ensures v.JInt? ==> r == Some(v.i)
    ensures v.JLong? ==> r == Some(WrapInt32(v.l))
    ensures v.JDouble? ==> r == Some(TruncateToInt32(v.d))
    ensures v.JString? ==> r == TryParseInt(v.s)
    ensures !(v.JInt? || v.JLong? || v.JDouble? || v.JString?) ==> r.None?
  {
    match v
    case JInt(i) => Some(i)
    case JLong(l) => Some(WrapInt32(l))
    case JDouble(d) => Some(TruncateToInt32(d))
    case JString(s) => TryParseInt(s)
    case _ => None
  }

  /** GetInt(key): a missing or unusable value throws an INVALID_FIELDS ArgumentException. */
  function GetInt(data: Json, key: string): (r: Result<int, Exception>)
    ensures !Has(data, key) ==> r == Failure(Exception(ArgumentException, InvalidFieldsCode + ": Missing int param: " + key))
    ensures Has(data, key) && data.fields[key] == JNull ==> r == Failure(Exception(NullReferenceException, NullReferenceMessage))
    ensures Has(data, key) && data.fields[key] != JNull && IntValue(data.fields[key]).None? ==>
              r == Failure(Exception(ArgumentException, InvalidFieldsCode + ": Invalid int param: " + key))
    ensures r.Success? <==> Has(data, key) && data.fields[key] != JNull && IntValue(data.fields[key]).Some?
    ensures r.Success? ==> r.value == IntValue(data.fields[key]).value
  {
    if !Has(data, key) then Failure(Exception(ArgumentException, InvalidFieldsCode + ": Missing int param: " + key))
    else
      var v := data.fields[key];
      if v == JNull then Failure(Exception(NullReferenceException, NullReferenceMessage))
      else match IntValue(v)
        case Some(n) => Success(n)
        case None => Failure(Exception(ArgumentException, InvalidFieldsCode + ": Invalid int param: " + key))
  }

  /** GetInt(key, default): the default replaces a missing or unusable value. */
  function GetIntOr(data: Json, key: string, defaultValue: int): (r: Result<int, Exception>)
    ensures !Has(data, key) ==> r == Success(defaultValue)
    ensures r.Failure? <==> Has(data, key) && data.fields[key] == JNull
    ensures Has(data, key) && data.fields[key] != JNull ==> r == Success(IntValue(data.fields[key]).GetOr(defaultValue))
  {
    if !Has(data, key) then Success(defaultValue)
    else
      var v := data.fields[key];
      if v == JNull then Failure(Exception(NullReferenceException, NullReferenceMessage))
      else Success(IntValue(v).GetOr(defaultValue))
  }

  /** The two GetInt overloads agree wherever the throwing one returns. */
  lemma GetIntAgrees(data: Json, key: string, defaultValue: int)
    ensures GetInt(data, key).Success? ==> GetIntOr(data, key, defaultValue) == GetInt(data, key)
    ensures GetInt(data, key).Failure? && Has(data, key) && data.fields[key] != JNull ==>
              GetIntOr(data, key, defaultValue) == Success(defaultValue)
  {
  }

  /** GetBool: a bool, or a string bool.TryParse accepts; otherwise the default. */
  function GetBool(data: Json, key: string, defaultValue: bool): (r: Result<bool, Exception>)
    ensures !Has(data, key) ==> r == Success(defaultValue)
    ensures r.Failure? <==> Has(data, key) && data.fields[key] == JNull
    ensures Has(data, key) && data.fields[key].JBool? ==> r == Success(data.fields[key].b)
    ensures Has(data, key) && data.fields[key].JString? ==> r == Success(TryParseBool(data.fields[key].s).GetOr(defaultValue))
    ensures Has(data, key) && !(data.fields[key].JBool? || data.fields[key].JString? || data.fields[key] == JNull) ==>
              r == Success(defaultValue)
  {
    if !Has(data, key) then Success(defaultValue)
    else
      match data.fields[key]
      case JNull => Failure(Exception(NullReferenceException, NullReferenceMessage))
      case JBool(b) => Success(b)
      case JString(s) => Success(TryParseBool(s).GetOr(defaultValue))
      case _ => Success(defaultValue)
  }

  /** GetString: a string as is, any other value through its ToString (given as `render`). */
  function GetString(data: Json, key: string, defaultValue: NullableString, render: Json -> string): (r: Result<NullableString, Exception>)
    ensures !Has(data, key) ==> r == Success(defaultValue)
    ensures r.Failure? <==> Has(data, key) && data.fields[key] == JNull
    ensures Has(data, key) && data.fields[key].JString? ==> r == Success(Some(data.fields[key].s))
    ensures Has(data, key) && !data.fields[key].JString? && data.fields[key] != JNull ==>
              r == Success(Some(render(data.fields[key])))
  {
    if !Has(data, key) then Success(defaultValue)
    else
      match data.fields[key]
      case JNull => Failure(Exception(NullReferenceException, NullReferenceMessage))
      case JString(s) => Success(Some(s))
      case v => Success(Some(render(v)))
  }
}
