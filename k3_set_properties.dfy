// K3PrefabSetComponentPropertiesHandler
// (UnitySkills/AgentCommands/Plugins/K3Prefab/Handlers/K3PrefabSetComponentPropertiesHandler.cs):
// the "k3prefab.setComponentProperties" command. It checks its parameters, parses the
// list of modifications, loads the prefab, picks the index-th K3 component with the
// given K3 ID, applies the modifications under the optimistic lock, saves the prefab
// when one of them succeeded, and reports every result with a summary.
//
// Loading a prefab, ToString of a JSON value and the .NET conversions are inputs.
// JSON values are read through LitJson's indexer, which throws for a node that is not
// an object and for a missing key.
module K3SetProperties {
  import opened Wrappers
  import opened Text
  import opened JsonValues
  import opened Commands
  import opened Scene
  import PathFinder
  import K3Modifier
  import K3Finder

  const CommandType := "k3prefab.setComponentProperties"
  const EmptyModificationsMissing := "EMPTY_MODIFICATIONS: modifications参数缺失"
  const EmptyModificationsEmpty := "EMPTY_MODIFICATIONS: modifications数组不能为空"
  /** The messages LitJson gives for indexing a node that is not an object and for a missing key; their texts are not part of this model. */
  const NotADictionaryMessage: string
  const KeyNotFoundMessage: string

  /** What the handler gets from outside: the prefab loader, ToString of a JSON node, and the conversions the setters use. */
  datatype Env = Env(loadPrefab: string -> Option<GameObject>, render: Json -> string, conv: K3Modifier.Conversions)

  /** The checked parameters. */
  datatype Request = Request(prefabPath: string, k3Id: nat, index: nat, modifications: seq<K3Modifier.Modification>)

  datatype Summary = Summary(total: nat, success: nat, skipped: nat, failed: nat)

  /** The result object; the component's properties after the call stand for currentProperties. */
  datatype Response = Response(prefabPath: string, k3Id: nat, index: nat, gameObjectPath: string, componentType: string,
                               modifications: seq<Json>, current: K3Fields, saved: bool, summary: Summary)

  function InvalidFields(detail: string): Exception
  {
    Exception(ArgumentException, InvalidFieldsCode + ": " + detail)
  }

  // ----- parsing the modifications -----

  /** LitJson's `node[key]`. */
  function Index(node: Json, key: string): Result<Json, Exception>
  {
    if node == JNull then Failure(Exception(NullReferenceException, NullReferenceMessage))
    else if !node.JObject? then Failure(Exception(InvalidOperationException, NotADictionaryMessage))
    else if key !in node.fields then Failure(Exception(OtherException, KeyNotFoundMessage))
    else Success(node.fields[key])
  }

  /** `node?.ToString() ?? ""`. */
  function NodeText(node: Json, env: Env): string
  {
    if node == JNull then "" else if node.JString? then node.s else env.render(node)
  }

  /** ParseJsonValue: the C# value of a JSON node; a node of any other kind becomes its text. */
  function ParseJsonValue(node: Json, env: Env): (v: K3Modifier.Obj)
    ensures v == K3Modifier.ONull <==> node == JNull
    ensures node.JInt? ==> v == K3Modifier.OInt(node.i)
    ensures node.JString? ==> v == K3Modifier.OString(node.s)
    ensures node.JArray? || node.JObject? || node == JUntyped ==> v == K3Modifier.OString(env.render(node))
  {
    match node
    case JNull => K3Modifier.ONull
    case JString(s) => K3Modifier.OString(s)
    case JInt(i) => K3Modifier.OInt(i)
    case JLong(l) => K3Modifier.OLong(l)
    case JDouble(d) => K3Modifier.ODouble(d)
    case JBool(b) => K3Modifier.OBool(b)
    case _ => K3Modifier.OString(env.render(node))
  }

  /** The i-th element of the modifications array as a modification, or the exception reading it throws. */
  function ParseModification(i: nat, node: Json, env: Env): Result<K3Modifier.Modification, Exception>
  {
    match Index(node, "property")
    case Failure(e) => Failure(e)
    case Success(p) =>
      var property := NodeText(p, env);
      if property == "" then Failure(Exception(ArgumentException, "modifications[" + IntToString(i) + "]: property is required"))
      else match Index(node, "oldValue")
        case Failure(e) => Failure(e)
        case Success(o) =>
          match Index(node, "newValue")
          case Failure(e) => Failure(e)
          case Success(n) => Success(K3Modifier.Modification(property, ParseJsonValue(o, env), ParseJsonValue(n, env)))
  }

  /** ParseModifications over the first elements: it stops at the first element that throws. */
  function ParseAll(items: seq<Json>, env: Env): Result<seq<K3Modifier.Modification>, Exception>
    decreases |items|
  {
    if items == [] then Success([])
    else match ParseAll(items[..|items| - 1], env)
      case Failure(e) => Failure(e)
      case Success(ms) =>
        match ParseModification(|items| - 1, items[|items| - 1], env)
        case Failure(e) => Failure(e)
        case Success(m) => Success(ms + [m])
  }

  /**
   * Parsing succeeds exactly when every element parses; then it gives one modification per
   * element, in order, each with a non-empty property.
   */
  lemma {:induction false} ParseAllMeaning(items: seq<Json>, env: Env)
    ensures ParseAll(items, env).Success? <==> forall i :: 0 <= i < |items| ==> ParseModification(i, items[i], env).Success?
    ensures ParseAll(items, env).Success? ==>
              && |ParseAll(items, env).value| == |items|
              && forall i :: 0 <= i < |items| ==>
                   && ParseAll(items, env).value[i] == ParseModification(i, items[i], env).value
                   && ParseAll(items, env).value[i].property != ""
    decreases |items|
  {
    if items != [] {
      var init := items[..|items| - 1];
      ParseAllMeaning(init, env);
      var n := |items| - 1;
      assert forall i :: 0 <= i < n ==> items[i] == init[i];
      if ParseAll(init, env).Success? && ParseModification(n, items[n], env).Success? {
        var ms := ParseAll(init, env).value;
        assert ParseAll(items, env).value == ms + [ParseModification(n, items[n], env).value];
      }
    }
  }

  /** An element without a usable property name is refused with its position. */
  lemma MissingPropertyRejected(i: nat, node: Json, env: Env)
    requires node.JObject? && "property" in node.fields
    requires node.fields["property"] == JNull || node.fields["property"] == JString("")
    ensures ParseModification(i, node, env) == Failure(Exception(ArgumentException, "modifications[" + IntToString(i) + "]: property is required"))
  {
  }

  /** Once an element throws, ParseAll throws what the first such element throws. */
  lemma {:induction false} ParseAllFirstError(items: seq<Json>, k: nat, env: Env)
    requires k < |items| && ParseModification(k, items[k], env).Failure?
    requires forall i :: 0 <= i < k ==> ParseModification(i, items[i], env).Success?
    ensures ParseAll(items, env) == Failure(ParseModification(k, items[k], env).error)
    decreases |items|
  {
    var init := items[..|items| - 1];
    if k < |items| - 1 {
      assert forall i :: 0 <= i <= k ==> init[i] == items[i];
      ParseAllFirstError(init, k, env);
    } else {
      assert forall i :: 0 <= i < k ==> init[i] == items[i];
      ParseAllMeaning(init, env);
    }
  }

  /** ParseModifications: its for loop. */
  method ParseModifications(items: seq<Json>, env: Env) returns (r: Result<seq<K3Modifier.Modification>, Exception>)
    ensures r == ParseAll(items, env)
  {
    var modifications: seq<K3Modifier.Modification> := [];
    var i := 0;
    while i < |items|
      invariant 0 <= i <= |items|
      invariant ParseAll(items[..i], env) == Success(modifications)
    {
      assert items[..i + 1][..i] == items[..i];
      var m := ParseModification(i, items[i], env);
      if m.Failure? {
        ParseAllStops(items, i + 1, env);
        return Failure(m.error);
      }
      modifications := modifications + [m.value];
      i := i + 1;
    }
    assert items[..|items|] == items;
    return Success(modifications);
  }

  /** Once a prefix throws, the rest is never read. */
  lemma {:induction false} ParseAllStops(items: seq<Json>, n: nat, env: Env)
    requires n <= |items| && ParseAll(items[..n], env).Failure?
    ensures ParseAll(items, env) == ParseAll(items[..n], env)
    decreases |items|
  {
    if n < |items| {
      var init := items[..|items| - 1];
      assert init[..n] == items[..n];
      ParseAllStops(init, n, env);
    } else {
      assert items[..n] == items;
    }
  }

  // ----- the parameters -----

  /** The k3Id parameter: absent reads as 0, and it must be a positive number. */
  function ReadK3Id(raw: Json): Result<nat, Exception>
  {
    if !Has(raw, "k3Id") then Failure(InvalidFields("k3Id must be greater than 0"))
    else match GetInt(raw, "k3Id")
      case Failure(e) => Failure(e)
      case Success(n) =>
        if n < 0 then Failure(InvalidFields("k3Id must be non-negative"))
        else if n == 0 then Failure(InvalidFields("k3Id must be greater than 0"))
        else Success(n)
  }

  /** The parameter checks, in the order the handler makes them. */
  function ReadRequest(raw: Json, env: Env): Result<Request, Exception>
  {
    match GetString(raw, "prefabPath", None, env.render)
    case Failure(e) => Failure(e)
    case Success(path) =>
      if path.None? || path.value == "" then Failure(InvalidFields("prefabPath is required"))
      else match ReadK3Id(raw)
        case Failure(e) => Failure(e)
        case Success(k3Id) =>
          match GetIntOr(raw, "index", 0)
          case Failure(e) => Failure(e)
          case Success(index) =>
            if index < 0 then Failure(InvalidFields("index must be >= 0"))
            else if !Has(raw, "modifications") then Failure(Exception(ArgumentException, EmptyModificationsMissing))
            else
              var list := raw.fields["modifications"];
              if !list.JArray? || |list.items| == 0 then Failure(Exception(ArgumentException, EmptyModificationsEmpty))
              else match ParseAll(list.items, env)
                case Failure(e) => Failure(e)
                case Success(mods) => Success(Request(path.value, k3Id, index, mods))
  }

  /** A request that passes the checks names a prefab, a positive K3 ID and at least one modification. */
  lemma ReadRequestMeaning(raw: Json, env: Env)
    ensures ReadRequest(raw, env).Success? ==>
              var q := ReadRequest(raw, env).value;
              && q.prefabPath != "" && q.k3Id > 0
              && Has(raw, "modifications") && raw.fields["modifications"].JArray?
              && |q.modifications| == |raw.fields["modifications"].items| > 0
    ensures ReadRequest(raw, env).Failure? ==> ReadRequest(raw, env).error.kind != NotSupportedException
  {
    if ReadRequest(raw, env).Success? {
      ParseAllMeaning(raw.fields["modifications"].items, env);
    }
    if ReadRequest(raw, env).Failure? && Has(raw, "modifications") && raw.fields["modifications"].JArray? {
      ParseKinds(raw.fields["modifications"].items, env);
    }
  }

  lemma {:induction false} ParseKinds(items: seq<Json>, env: Env)
    ensures ParseAll(items, env).Failure? ==> ParseAll(items, env).error.kind != NotSupportedException
    decreases |items|
  {
    if items != [] {
      ParseKinds(items[..|items| - 1], env);
    }
  }

  /** With a good prefab path, a missing k3Id is refused before anything else is read. */
  lemma MissingK3IdRejected(raw: Json, env: Env)
    requires raw.JObject? && "prefabPath" in raw.fields && raw.fields["prefabPath"].JString?
    requires raw.fields["prefabPath"].s != "" && "k3Id" !in raw.fields
    ensures ReadRequest(raw, env) == Failure(InvalidFields("k3Id must be greater than 0"))
  {
  }

  // ----- the command -----

  /** ConvertToJsonData: a uint is cast to int, and a value of another type (a long) becomes its text. */
  function ToJson(v: K3Modifier.Obj, env: Env): (j: Json)
    ensures v == K3Modifier.ONull ==> j == JUntyped
    ensures v.OUInt? ==> j == JInt(WrapInt32(v.u))
    ensures v.OLong? ==> j == JString(K3Modifier.Text(v, env.conv))
  {
    match v
    case ONull => JUntyped
    case OString(s) => JString(s)
    case OInt(i) => JInt(i)
    case OUInt(u) => JInt(WrapInt32(u))
    case ODouble(d) => JDouble(d)
    case OSingle(f) => JDouble(f)
    case OBool(b) => JBool(b)
    case OLong(_) => JString(K3Modifier.Text(v, env.conv))
  }

  function ResultJson(r: K3Modifier.ModResult, env: Env): Json
  {
    JObject(map["property" := JString(r.property), "oldValue" := ToJson(r.oldValue, env),
                "expectedValue" := ToJson(r.expectedValue, env), "currentValue" := ToJson(r.currentValue, env),
                "newValue" := ToJson(r.newValue, env), "status" := JString(K3Modifier.StatusName(r.status)),
                "message" := JString(r.message)])
  }

  /** The number of results with a status. */
  function CountStatus(rs: seq<K3Modifier.ModResult>, s: K3Modifier.Status): (n: nat)
    ensures n <= |rs|
    decreases |rs|
  {
    if rs == [] then 0
    else CountStatus(rs[..|rs| - 1], s) + (if rs[|rs| - 1].status == s then 1 else 0)
  }

  /** Every result has one of the three statuses, so the three counts add up to the total. */
  lemma {:induction false} CountsAddUp(rs: seq<K3Modifier.ModResult>)
    ensures CountStatus(rs, K3Modifier.Succeeded) + CountStatus(rs, K3Modifier.Skipped) + CountStatus(rs, K3Modifier.Failed) == |rs|
    decreases |rs|
  {
    if rs != [] {
      CountsAddUp(rs[..|rs| - 1]);
    }
  }

  /** `rs.Any(r => r.status == "success")` holds exactly when the success count is positive. */
  lemma {:induction false} AnySuccess(rs: seq<K3Modifier.ModResult>)
    ensures CountStatus(rs, K3Modifier.Succeeded) > 0 <==> exists i :: 0 <= i < |rs| && rs[i].status == K3Modifier.Succeeded
    decreases |rs|
  {
    if rs != [] {
      var init := rs[..|rs| - 1];
      AnySuccess(init);
      if exists i :: 0 <= i < |init| && init[i].status == K3Modifier.Succeeded {
        var i :| 0 <= i < |init| && init[i].status == K3Modifier.Succeeded;
        assert rs[i] == init[i];
      }
      if exists i :: 0 <= i < |rs| && rs[i].status == K3Modifier.Succeeded {
        var i :| 0 <= i < |rs| && rs[i].status == K3Modifier.Succeeded;
        if i < |init| {
          assert init[i] == rs[i];
        }
      }
    }
  }

  /** The message for an index past the matches. */
  function IndexOutOfRangeMessage(k3Id: nat, count: nat, index: nat): string
  {
    "INDEX_OUT_OF_RANGE: 索引超出范围，K3ID " + IntToString(k3Id) + "只有" + IntToString(count) +
    "个匹配项（索引0-" + IntToString(count - 1) + "），但请求了索引" + IntToString(index)
  }

  /** The response for a request whose component was found; the component's fields afterwards come from ModifyAll. */
  function Respond(q: Request, prefab: GameObject, target: K3Finder.Match, env: Env): Response
    requires K3Finder.IsK3At(prefab, target.component)
  {
    var (after, results) := K3Modifier.ModifyAll(K3Finder.FieldsAt(prefab, target.component), q.modifications, env.conv);
    Response(q.prefabPath, q.k3Id, q.index, PathFinder.PathOf(prefab, target.component.loc),
             K3Finder.TypeNameAt(prefab, target.component),
             seq(|results|, i requires 0 <= i < |results| => ResultJson(results[i], env)),
             after, CountStatus(results, K3Modifier.Succeeded) > 0,
             Summary(|results|, CountStatus(results, K3Modifier.Succeeded), CountStatus(results, K3Modifier.Skipped),
                     CountStatus(results, K3Modifier.Failed)))
  }

  /** Execute: the response, or the exception the command throws. */
  function ExecuteOf(raw: Json, env: Env): Result<Response, Exception>
  {
    match ReadRequest(raw, env)
    case Failure(e) => Failure(e)
    case Success(q) =>
      match env.loadPrefab(q.prefabPath)
      case None => Failure(Exception(InvalidOperationException, "PREFAB_NOT_FOUND: 预制体文件不存在: " + q.prefabPath))
      case Some(prefab) =>
        var matches := K3Finder.Matches(prefab, q.k3Id);
        if |matches| == 0 then Failure(Exception(InvalidOperationException, "K3ID_NOT_FOUND: 未找到K3ID为" + IntToString(q.k3Id) + "的组件"))
        else if q.index >= |matches| then Failure(Exception(OtherException, IndexOutOfRangeMessage(q.k3Id, |matches|, q.index)))
        else Success(Respond(q, prefab, matches[q.index], env))
  }

  /**
   * A successful call modified the index-th match with the requested K3 ID: one result per
   * modification, a summary whose counts add up, and a save exactly when some modification
   * succeeded. Without a save the component is as it was.
   */
  lemma ExecuteMeaning(raw: Json, env: Env)
    requires ExecuteOf(raw, env).Success?
    ensures var q := ReadRequest(raw, env).value;
            var prefab := env.loadPrefab(q.prefabPath).value;
            var r := ExecuteOf(raw, env).value;
            var target := K3Finder.Matches(prefab, q.k3Id)[q.index];
            var results := K3Modifier.ModifyAll(K3Finder.FieldsAt(prefab, target.component), q.modifications, env.conv).1;
            && ReadRequest(raw, env).Success? && env.loadPrefab(q.prefabPath).Some?
            && q.index < |K3Finder.Matches(prefab, q.k3Id)|
            && K3Finder.FieldsAt(prefab, target.component).id == Some(q.k3Id)
            && |r.modifications| == |q.modifications| == r.summary.total
            && r.summary.success + r.summary.skipped + r.summary.failed == r.summary.total
            && (r.saved <==> exists i :: 0 <= i < |results| && results[i].status == K3Modifier.Succeeded)
            && (!r.saved ==> r.current == K3Finder.FieldsAt(prefab, target.component))
  {
    var q := ReadRequest(raw, env).value;
    var prefab := env.loadPrefab(q.prefabPath).value;
    var target := K3Finder.Matches(prefab, q.k3Id)[q.index];
    var f := K3Finder.FieldsAt(prefab, target.component);
    var results := K3Modifier.ModifyAll(f, q.modifications, env.conv).1;
    K3Modifier.ModifyAllShape(f, q.modifications, env.conv);
    CountsAddUp(results);
    AnySuccess(results);
    if CountStatus(results, K3Modifier.Succeeded) == 0 {
      K3Modifier.NoSuccessNoChange(f, q.modifications, env.conv);
    }
  }

  /** A prefab the loader cannot find is reported after the parameters pass. */
  lemma PrefabNotFound(raw: Json, env: Env)
    requires ReadRequest(raw, env).Success? && env.loadPrefab(ReadRequest(raw, env).value.prefabPath).None?
    ensures ExecuteOf(raw, env) == Failure(Exception(InvalidOperationException,
                                                     "PREFAB_NOT_FOUND: 预制体文件不存在: " + ReadRequest(raw, env).value.prefabPath))
  {
  }

  /** Execute: the handler's steps, the modifier working on the loaded component. */
  method Execute(raw: Json, env: Env) returns (r: Result<Response, Exception>)
    ensures r == ExecuteOf(raw, env)
  {
    var path := GetString(raw, "prefabPath", None, env.render);
    if path.Failure? {
      return Failure(path.error);
    }
    if path.value.None? || path.value.value == "" {
      return Failure(InvalidFields("prefabPath is required"));
    }
    var prefabPath := path.value.value;
    var k3Id := ReadK3Id(raw);
    if k3Id.Failure? {
      return Failure(k3Id.error);
    }
    var index := GetIntOr(raw, "index", 0);
    if index.Failure? {
      return Failure(index.error);
    }
    if index.value < 0 {
      return Failure(InvalidFields("index must be >= 0"));
    }
    if !Has(raw, "modifications") {
      return Failure(Exception(ArgumentException, EmptyModificationsMissing));
    }
    var list := raw.fields["modifications"];
    if !list.JArray? || |list.items| == 0 {
      return Failure(Exception(ArgumentException, EmptyModificationsEmpty));
    }
    var modifications := ParseModifications(list.items, env);
    if modifications.Failure? {
      return Failure(modifications.error);
    }
    ghost var q := Request(prefabPath, k3Id.value, index.value, modifications.value);
    assert ReadRequest(raw, env) == Success(q);

    var loaded := env.loadPrefab(prefabPath);
    if loaded.None? {
      return Failure(Exception(InvalidOperationException, "PREFAB_NOT_FOUND: 预制体文件不存在: " + prefabPath));
    }
    var prefab := loaded.value;
    var allMatches := K3Finder.FindComponentsByK3Id(prefab, k3Id.value);
    if |allMatches| == 0 {
      return Failure(Exception(InvalidOperationException, "K3ID_NOT_FOUND: 未找到K3ID为" + IntToString(k3Id.value) + "的组件"));
    }
    if index.value >= |allMatches| {
      return Failure(Exception(OtherException, IndexOutOfRangeMessage(k3Id.value, |allMatches|, index.value)));
    }
    var target := allMatches[index.value];
    var component := new K3Modifier.K3Component(K3Finder.FieldsAt(prefab, target.component));
    var results := K3Modifier.ModifyProperties(component, modifications.value, env.conv);
    var saved := CountStatus(results, K3Modifier.Succeeded) > 0;
    var entries := seq(|results|, i requires 0 <= i < |results| => ResultJson(results[i], env));
    var summary := Summary(|results|, CountStatus(results, K3Modifier.Succeeded), CountStatus(results, K3Modifier.Skipped),
                           CountStatus(results, K3Modifier.Failed));
    r := Success(Response(prefabPath, k3Id.value, index.value, PathFinder.PathOf(prefab, target.component.loc),
                          K3Finder.TypeNameAt(prefab, target.component), entries, component.State(), saved, summary));
  }
}
