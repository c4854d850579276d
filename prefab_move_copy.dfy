// PrefabMoveOrCopyGameObjectHandler
// (UnityAgentSkills/Plugins/Prefab/Handlers/PrefabMoveOrCopyGameObjectHandler.cs): the
// "prefab.moveOrCopyGameObject" command. It finds a game object and a new parent by path
// in a prefab, refuses to move an object under itself or to copy it next to itself, and
// reports where the object, or its copy, ends up.
//
// Loading and saving the prefab, ToString of a JSON value and the instance ID of a new
// copy are inputs. Game objects are named by their locations in the loaded prefab, so
// two locations are the same object exactly when they are equal.
module PrefabMoveOrCopy {
  import opened Wrappers
  import opened Text
  import opened JsonValues
  import opened Commands
  import opened Scene
  import opened PathFinder

  const CommandType := "prefab.moveOrCopyGameObject"
  const CannotCopyToSameParentMessage := "CANNOT_COPY_TO_SAME_PARENT: 不能将GameObject复制到其原父节点下"

  /** The prefab loader, ToString of a JSON node, what saving the prefab returns, and the instance ID Unity gives a copy. */
  datatype Env = Env(loadPrefab: string -> Option<GameObject>, render: Json -> string, saved: bool, copyInstanceId: int)

  datatype Params = Params(prefabPath: string, sourcePath: string, sourceSiblingIndex: int,
                           targetParentPath: string, targetSiblingIndex: int, isCopy: bool)

  datatype Response =
    | Moved(prefabPath: string, sourcePath: string, oldPath: string, newPath: string,
            oldSiblingIndex: nat, newSiblingIndex: nat, operatedInstanceId: int, saved: bool)
    | Copied(prefabPath: string, originalPath: string, copiedPath: string, sourceSiblingIndex: nat,
             targetSiblingIndex: nat, originalInstanceId: int, copiedInstanceId: int, saved: bool)

  function InvalidFields(detail: string): Exception
  {
    Exception(ArgumentException, InvalidFieldsCode + ": " + detail)
  }

  function NotFound(message: string): Exception
  {
    Exception(InvalidOperationException, message)
  }

  /** The parameters: all six are read first, then the three paths are checked. */
  function ReadParams(raw: Json, render: Json -> string): Result<Params, Exception>
  {
    var prefabPath := GetString(raw, "prefabPath", None, render);
    var sourcePath := GetString(raw, "sourcePath", None, render);
    var sourceSiblingIndex := GetIntOr(raw, "sourceSiblingIndex", 0);
    var targetParentPath := GetString(raw, "targetParentPath", None, render);
    var targetSiblingIndex := GetIntOr(raw, "targetSiblingIndex", -1);
    var isCopy := GetBool(raw, "isCopy", false);
    if prefabPath.Failure? then Failure(prefabPath.error)
    else if sourcePath.Failure? then Failure(sourcePath.error)
    else if sourceSiblingIndex.Failure? then Failure(sourceSiblingIndex.error)
    else if targetParentPath.Failure? then Failure(targetParentPath.error)
    else if targetSiblingIndex.Failure? then Failure(targetSiblingIndex.error)
    else if isCopy.Failure? then Failure(isCopy.error)
    else if OrEmpty(prefabPath.value) == "" then Failure(InvalidFields("prefabPath is required"))
    else if OrEmpty(sourcePath.value) == "" then Failure(InvalidFields("sourcePath is required"))
    else if OrEmpty(targetParentPath.value) == "" then Failure(InvalidFields("targetParentPath is required"))
    else Success(Params(prefabPath.value.value, sourcePath.value.value, sourceSiblingIndex.value,
                        targetParentPath.value.value, targetSiblingIndex.value, isCopy.value))
  }

  // ----- placing among siblings -----

  /** GetSiblingIndex: the object's position among its parent's children; the prefab root reads 0. */
  function SiblingIndex(loc: Loc): nat
  {
    if loc == [] then 0 else loc[|loc| - 1]
  }

  /**
   * Where an object ends among `count` children, itself included: at the requested index
   * when it is one of theirs, otherwise last.
   */
  function PlacedIndex(targetSiblingIndex: int, count: nat): (r: nat)
    requires count >= 1
    ensures r < count
    ensures 0 <= targetSiblingIndex < count ==> r == targetSiblingIndex
    ensures !(0 <= targetSiblingIndex < count) ==> r == count - 1
  {
    if 0 <= targetSiblingIndex < count then targetSiblingIndex else count - 1
  }

  /** The child list after SetParent, then SetSiblingIndex or SetAsLastSibling, puts `c` among `others`. */
  function Place(others: seq<GameObject>, c: GameObject, targetSiblingIndex: int): seq<GameObject>
  {
    var pos := PlacedIndex(targetSiblingIndex, |others| + 1);
    others[..pos] + [c] + others[pos..]
  }

  /** The placed object sits at its placed index, and the other children keep their order around it. */
  lemma PlaceMeaning(others: seq<GameObject>, c: GameObject, t: int)
    ensures var r := Place(others, c, t);
            var pos := PlacedIndex(t, |others| + 1);
            && |r| == |others| + 1 && r[pos] == c
            && r[..pos] + r[pos + 1..] == others
  {
    var pos := PlacedIndex(t, |others| + 1);
    var r := Place(others, c, t);
    assert r[..pos] == others[..pos];
    assert r[pos + 1..] == others[pos..];
  }

  // ----- IsChildOf -----

  /** IsChildOf(target, source): walks up from `target` through its parents looking for `source`. */
  method IsChildOf(target: Option<Loc>, source: Option<Loc>) returns (r: bool)
    ensures r <==> target.Some? && source.Some? && IsPrefix(source.value, target.value)
  {
    if target.None? || source.None? {
      return false;
    }
    var t, s := target.value, source.value;
    var k := |t| + 1;
    while k > 0
      invariant 0 <= k <= |t| + 1
      invariant forall m :: k <= m <= |t| ==> t[..m] != s
    {
      if t[..k - 1] == s {
        return true;
      }
      k := k - 1;
    }
    return false;
  }

  // ----- the command -----

  /** Whether the edit is refused: a move under the object itself, or a copy under the object's own parent. */
  predicate Refused(src: Loc, tgt: Loc, isCopy: bool)
  {
    if !isCopy then IsPrefix(src, tgt)
    else src != [] && tgt == src[..|src| - 1]
  }

  /**
   * How many children the new parent has once the object is under it: one more than now,
   * unless the object is already one of them.
   */
  function MoveCount(prefab: GameObject, src: Loc, tgt: Loc): (r: nat)
    requires ValidLoc(prefab, src) && ValidLoc(prefab, tgt)
    ensures r >= 1
    ensures r == |NodeAt(prefab, tgt).children| || r == |NodeAt(prefab, tgt).children| + 1
  {
    var children := |NodeAt(prefab, tgt).children|;
    if src != [] && tgt == src[..|src| - 1] then
      ParentLoc(prefab, src);
      children
    else children + 1
  }

  /** The response for an edit that is not refused. */
  function Edit(prefab: GameObject, p: Params, src: Loc, tgt: Loc, env: Env): Response
    requires ValidLoc(prefab, src) && ValidLoc(prefab, tgt) && !Refused(src, tgt, p.isCopy)
  {
    var moving := NodeAt(prefab, src);
    var parentPath := PathOf(prefab, tgt);
    var children := |NodeAt(prefab, tgt).children|;
    if !p.isCopy then
      var count := MoveCount(prefab, src, tgt);
      Moved(p.prefabPath, p.sourcePath, PathOf(prefab, src), parentPath + "/" + moving.name,
            SiblingIndex(src), PlacedIndex(p.targetSiblingIndex, count), moving.instanceId, env.saved)
    else
      Copied(p.prefabPath, PathOf(prefab, src), parentPath + "/" + moving.name + "(Clone)",
             SiblingIndex(src), PlacedIndex(p.targetSiblingIndex, children + 1), moving.instanceId,
             env.copyInstanceId, env.saved)
  }

  /** The refusal checks on the two objects found, then the edit. */
  function EditOf(prefab: GameObject, p: Params, src: Loc, tgt: Loc, env: Env): Result<Response, Exception>
    requires ValidLoc(prefab, src) && ValidLoc(prefab, tgt)
  {
    if !p.isCopy && IsPrefix(src, tgt) then
      Failure(NotFound("CANNOT_MOVE_TO_SELF_OR_CHILD: 不能将物体移动到其自身或其子节点下: " + p.sourcePath))
    else if p.isCopy && Refused(src, tgt, true) then Failure(NotFound(CannotCopyToSameParentMessage))
    else Success(Edit(prefab, p, src, tgt, env))
  }

  /** Execute: the response, or the exception the command throws. */
  function ExecuteOf(raw: Json, env: Env): Result<Response, Exception>
  {
    match ReadParams(raw, env.render)
    case Failure(e) => Failure(e)
    case Success(p) =>
      match env.loadPrefab(p.prefabPath)
      case None => Failure(NotFound("Prefab not found at path: " + p.prefabPath))
      case Some(prefab) =>
        FindValid(prefab, p.sourcePath, p.sourceSiblingIndex);
        FindValid(prefab, p.targetParentPath, 0);
        match Find(Some(prefab), p.sourcePath, p.sourceSiblingIndex)
        case None => Failure(NotFound("GameObject not found at path: " + p.sourcePath + " (siblingIndex=" + IntToString(p.sourceSiblingIndex) + ")"))
        case Some(src) =>
          match Find(Some(prefab), p.targetParentPath, 0)
          case None => Failure(NotFound("GameObject not found at path: " + p.targetParentPath))
          case Some(tgt) => EditOf(prefab, p, src, tgt, env)
  }

  /** The prefab root can never be moved: every parent lies under it. */
  lemma RootNeverMoved(raw: Json, env: Env)
    requires ReadParams(raw, env.render).Success? && !ReadParams(raw, env.render).value.isCopy
    requires env.loadPrefab(ReadParams(raw, env.render).value.prefabPath).Some?
    requires var p := ReadParams(raw, env.render).value;
             Find(Some(env.loadPrefab(p.prefabPath).value), p.sourcePath, p.sourceSiblingIndex) == Some([])
    ensures ExecuteOf(raw, env).Failure?
  {
  }

  /**
   * A move succeeds only onto a parent outside the moved subtree; the object keeps its name
   * under the new parent's path, at the requested index when there is a child there and
   * last otherwise. A copy lands under another parent, named with "(Clone)".
   */
  lemma ExecuteMeaning(raw: Json, env: Env)
    requires ExecuteOf(raw, env).Success?
    ensures var p := ReadParams(raw, env.render).value;
            var prefab := env.loadPrefab(p.prefabPath).value;
            var src := Find(Some(prefab), p.sourcePath, p.sourceSiblingIndex).value;
            var tgt := Find(Some(prefab), p.targetParentPath, 0).value;
            var r := ExecuteOf(raw, env).value;
            && ValidLoc(prefab, src) && ValidLoc(prefab, tgt) && !Refused(src, tgt, p.isCopy)
            && (r.Moved? <==> !p.isCopy)
            && (r.Moved? ==>
                  && !IsPrefix(src, tgt)
                  && r.newPath == PathOf(prefab, tgt) + "/" + NodeAt(prefab, src).name
                  && (0 <= p.targetSiblingIndex < |NodeAt(prefab, tgt).children| ==> r.newSiblingIndex == p.targetSiblingIndex))
            && (r.Copied? ==>
                  && (src != [] ==> tgt != src[..|src| - 1])
                  && r.copiedPath == PathOf(prefab, tgt) + "/" + NodeAt(prefab, src).name + "(Clone)"
                  && r.targetSiblingIndex <= |NodeAt(prefab, tgt).children|)
  {
    var p := ReadParams(raw, env.render).value;
    var prefab := env.loadPrefab(p.prefabPath).value;
    FindValid(prefab, p.sourcePath, p.sourceSiblingIndex);
    FindValid(prefab, p.targetParentPath, 0);
  }

  /** Execute: the handler's steps. */
  method Execute(raw: Json, env: Env) returns (r: Result<Response, Exception>)
    ensures r == ExecuteOf(raw, env)
  {
    var params := ReadParams(raw, env.render);
    if params.Failure? {
      return Failure(params.error);
    }
    var p := params.value;
    var loaded := env.loadPrefab(p.prefabPath);
    if loaded.None? {
      return Failure(NotFound("Prefab not found at path: " + p.prefabPath));
    }
    var prefab := loaded.value;
    var source := FindByPath(loaded, p.sourcePath, p.sourceSiblingIndex);
    if source.None? {
      return Failure(NotFound("GameObject not found at path: " + p.sourcePath + " (siblingIndex=" + IntToString(p.sourceSiblingIndex) + ")"));
    }
    var target := FindByPath(loaded, p.targetParentPath, 0);
    if target.None? {
      return Failure(NotFound("GameObject not found at path: " + p.targetParentPath));
    }
    r := Operate(prefab, p, source.value, target.value, env);
  }

  /** The move or copy once both objects are found: the checks on where the object would go, then the edit. */
  method Operate(prefab: GameObject, p: Params, src: Loc, tgt: Loc, env: Env) returns (r: Result<Response, Exception>)
    requires ValidLoc(prefab, src) && ValidLoc(prefab, tgt)
    ensures r == EditOf(prefab, p, src, tgt, env)
  {
    if !p.isCopy {
      var below := IsChildOf(Some(tgt), Some(src));
      if tgt == src || below {
        return Failure(NotFound("CANNOT_MOVE_TO_SELF_OR_CHILD: 不能将物体移动到其自身或其子节点下: " + p.sourcePath));
      }
    } else if src != [] && tgt == src[..|src| - 1] {
      return Failure(NotFound(CannotCopyToSameParentMessage));
    }
    r := Success(Edit(prefab, p, src, tgt, env));
  }
}
