// PrefabDeleteGameObjectHandler
// (UnityAgentSkills/Plugins/Prefab/Handlers/PrefabDeleteGameObjectHandler.cs): the
// "prefab.deleteGameObject" command. It finds a game object by path in a prefab, refuses
// the prefab root, deletes the object with all its descendants and reports how many
// objects went.
//
// Loading and saving the prefab and ToString of a JSON value are inputs; saving is handed
// the tree that remains after the deletion.
module PrefabDelete {
  import opened Wrappers
  import opened Text
  import opened JsonValues
  import opened Commands
  import opened Scene
  import opened PathFinder

  const CommandType := "prefab.deleteGameObject"

  /** The prefab loader, ToString of a JSON node, and what saving a prefab tree returns. */
  datatype Env = Env(loadPrefab: string -> Option<GameObject>, render: Json -> string, save: GameObject -> bool)

  datatype Params = Params(prefabPath: string, objectPath: string, siblingIndex: int)

  datatype Response = Response(prefabPath: string, deletedObjectPath: string, deletedInstanceId: int,
                               deletedObjectCount: nat, totalDeletedCount: nat, saved: bool)

  // ----- the tree after the deletion -----

  /** The tree without the object at `loc` and its descendants. */
  function Remove(g: GameObject, loc: Loc): (r: GameObject)
    requires ValidLoc(g, loc) && loc != []
    ensures r.name == g.name && r.instanceId == g.instanceId
    decreases loc
  {
    var i := loc[0];
    if |loc| == 1 then g.(children := g.children[..i] + g.children[i + 1..])
    else g.(children := g.children[i := Remove(g.children[i], loc[1..])])
  }

  /** The deleted object's parent loses exactly that child; its other children keep their order. */
  lemma {:induction false} RemoveFromParent(g: GameObject, loc: Loc)
    requires ValidLoc(g, loc) && loc != []
    ensures var parent := loc[..|loc| - 1];
            var i := loc[|loc| - 1];
            && ValidLoc(g, parent) && i < |NodeAt(g, parent).children|
            && ValidLoc(Remove(g, loc), parent)
            && NodeAt(Remove(g, loc), parent).children == NodeAt(g, parent).children[..i] + NodeAt(g, parent).children[i + 1..]
            && NodeAt(Remove(g, loc), parent).name == NodeAt(g, parent).name
    decreases loc
  {
    ParentLoc(g, loc);
    if |loc| > 1 {
      var rest := loc[1..];
      RemoveFromParent(g.children[loc[0]], rest);
      assert loc[..|loc| - 1][0] == loc[0] && loc[..|loc| - 1][1..] == rest[..|rest| - 1];
    }
  }

  /** CountAll of the first `n` subtrees sees only those subtrees. */
  lemma {:induction false} CountAllPrefix(cs: seq<GameObject>, n: nat)
    requires n <= |cs|
    ensures CountAll(cs, n) == CountAll(cs[..n], n)
    decreases n
  {
    if n > 0 {
      CountAllPrefix(cs, n - 1);
      CountAllPrefix(cs[..n], n - 1);
      assert cs[..n][..n - 1] == cs[..n - 1];
    }
  }

  /** Counting a concatenation counts each part. */
  lemma {:induction false} CountAllAppend(a: seq<GameObject>, b: seq<GameObject>)
    ensures CountAll(a + b, |a + b|) == CountAll(a, |a|) + CountAll(b, |b|)
    decreases |b|
  {
    if b == [] {
      assert a + b == a;
    } else {
      var b' := b[..|b| - 1];
      CountAllAppend(a, b');
      CountAllPrefix(a + b, |a + b| - 1);
      assert (a + b)[..|a + b| - 1] == a + b';
      CountAllPrefix(b, |b| - 1);
    }
  }

  /** Counting a child list around its `i`th subtree. */
  lemma CountAllAround(cs: seq<GameObject>, i: nat)
    requires i < |cs|
    ensures CountAll(cs, |cs|) == CountAll(cs[..i], i) + Count(cs[i]) + CountAll(cs[i + 1..], |cs| - i - 1)
  {
    var a, x, b := cs[..i], [cs[i]], cs[i + 1..];
    assert cs == (a + x) + b;
    CountAllAppend(a + x, b);
    CountAllAppend(a, x);
    assert CountAll(x, 1) == Count(cs[i]) by {
      assert CountAll(x, 0) == 0;
    }
  }

  /** The first `n` subtrees never hold more objects than all of them. */
  lemma {:induction false} CountAllMonotone(cs: seq<GameObject>, n: nat)
    requires n <= |cs|
    ensures CountAll(cs, n) <= CountAll(cs, |cs|)
    decreases |cs| - n
  {
    if n < |cs| {
      CountAllMonotone(cs, n + 1);
    }
  }

  /** Deleting an object removes exactly the objects of its subtree. */
  lemma {:induction false} RemoveCount(g: GameObject, loc: Loc)
    requires ValidLoc(g, loc) && loc != []
    ensures Count(g) == Count(Remove(g, loc)) + Count(NodeAt(g, loc))
    decreases loc
  {
    var i := loc[0];
    var cs := g.children;
    var r := Remove(g, loc);
    assert Count(g) == 1 + CountAll(cs, |cs|);
    assert Count(r) == 1 + CountAll(r.children, |r.children|);
    CountAllAround(cs, i);
    if |loc| == 1 {
      assert r.children == cs[..i] + cs[i + 1..];
      CountAllAppend(cs[..i], cs[i + 1..]);
    } else {
      var rest := loc[1..];
      assert NodeAt(g, loc) == NodeAt(cs[i], rest);
      RemoveCount(cs[i], rest);
      var cs' := r.children;
      assert cs' == cs[i := Remove(cs[i], rest)];
      assert cs'[..i] == cs[..i] && cs'[i + 1..] == cs[i + 1..];
      CountAllAround(cs', i);
    }
  }

  // ----- CountGameObjects -----

  /**
   * CountGameObjects(root, includeSelf): the objects in the subtree, the root itself only
   * when asked for; nothing for a missing object.
   */
  method CountGameObjects(root: Option<GameObject>, includeSelf: bool) returns (count: nat)
    ensures root.None? ==> count == 0
    ensures root.Some? ==> count == Count(root.value) - (if includeSelf then 0 else 1)
    decreases if root.Some? then Count(root.value) else 0
  {
    if root.None? {
      return 0;
    }
    var g := root.value;
    count := if includeSelf then 1 else 0;
    var i := 0;
    while i < |g.children|
      invariant 0 <= i <= |g.children|
      invariant count == (if includeSelf then 1 else 0) + CountAll(g.children, i)
    {
      CountAllMonotone(g.children, i + 1);
      var n := CountGameObjects(Some(g.children[i]), true);
      count := count + n;
      i := i + 1;
    }
  }

  // ----- the command -----

  function InvalidFields(detail: string): Exception
  {
    Exception(ArgumentException, InvalidFieldsCode + ": " + detail)
  }

  function NotFound(message: string): Exception
  {
    Exception(InvalidOperationException, message)
  }

  /** The parameters: all three are read first, then the two paths are checked. */
  function ReadParams(raw: Json, render: Json -> string): Result<Params, Exception>
  {
    var prefabPath := GetString(raw, "prefabPath", None, render);
    var objectPath := GetString(raw, "objectPath", None, render);
    var siblingIndex := GetIntOr(raw, "siblingIndex", 0);
    if prefabPath.Failure? then Failure(prefabPath.error)
    else if objectPath.Failure? then Failure(objectPath.error)
    else if siblingIndex.Failure? then Failure(siblingIndex.error)
    else if OrEmpty(prefabPath.value) == "" then Failure(InvalidFields("prefabPath is required"))
    else if OrEmpty(objectPath.value) == "" then Failure(InvalidFields("objectPath is required"))
    else Success(Params(prefabPath.value.value, objectPath.value.value, siblingIndex.value))
  }

  function NotFoundMessage(p: Params): string
  {
    "GameObject not found at path: " + p.objectPath + " (siblingIndex=" + IntToString(p.siblingIndex) + ")"
  }

  function CannotDeleteRootMessage(p: Params): string
  {
    "CANNOT_DELETE_ROOT: 不能删除预制体根节点: " + p.objectPath
  }

  /** The refusal of the root, then the deletion of the object found and what is reported about it. */
  function DeleteOf(prefab: GameObject, p: Params, loc: Loc, env: Env): Result<Response, Exception>
    requires ValidLoc(prefab, loc)
  {
    if loc == [] then Failure(NotFound(CannotDeleteRootMessage(p)))
    else
      var target := NodeAt(prefab, loc);
      Success(Response(p.prefabPath, PathOf(prefab, loc), target.instanceId, 1, Count(target),
                       env.save(Remove(prefab, loc))))
  }

  /** Execute: the response, or the exception the command throws. */
  function ExecuteOf(raw: Json, env: Env): Result<Response, Exception>
  {
    match ReadParams(raw, env.render)
    case Failure(e) => Failure(e)
    case Success(p) =>
      match env.loadPrefab(p.prefabPath)
      case None => Failure(NotFound("Prefab not found at path: " + p.prefabPath))
      case Some(prefab) =>
        FindValid(prefab, p.objectPath, p.siblingIndex);
        match Find(Some(prefab), p.objectPath, p.siblingIndex)
        case None => Failure(NotFound(NotFoundMessage(p)))
        case Some(loc) => DeleteOf(prefab, p, loc, env)
  }

  /** The prefab root is never deleted. */
  lemma RootNotDeleted(raw: Json, env: Env)
    requires ReadParams(raw, env.render).Success?
    requires var p := ReadParams(raw, env.render).value;
             && env.loadPrefab(p.prefabPath).Some?
             && Find(Some(env.loadPrefab(p.prefabPath).value), p.objectPath, p.siblingIndex) == Some([])
    ensures ExecuteOf(raw, env) == Failure(NotFound(CannotDeleteRootMessage(ReadParams(raw, env.render).value)))
  {
  }

  /**
   * A deletion succeeds exactly when the object is found below the root; it reports the
   * object's path, and as the total the number of objects the saved prefab has lost.
   */
  lemma ExecuteMeaning(raw: Json, env: Env)
    requires ReadParams(raw, env.render).Success?
    requires env.loadPrefab(ReadParams(raw, env.render).value.prefabPath).Some?
    ensures var p := ReadParams(raw, env.render).value;
            var prefab := env.loadPrefab(p.prefabPath).value;
            var found := Find(Some(prefab), p.objectPath, p.siblingIndex);
            && (ExecuteOf(raw, env).Success? <==> found.Some? && found.value != [])
            && (ExecuteOf(raw, env).Success? ==>
                  var r := ExecuteOf(raw, env).value;
                  && ValidLoc(prefab, found.value)
                  && r.deletedObjectPath == PathOf(prefab, found.value)
                  && r.deletedObjectCount == 1
                  && r.totalDeletedCount == Count(prefab) - Count(Remove(prefab, found.value))
                  && r.saved == env.save(Remove(prefab, found.value)))
  {
    var p := ReadParams(raw, env.render).value;
    var prefab := env.loadPrefab(p.prefabPath).value;
    FindValid(prefab, p.objectPath, p.siblingIndex);
    var found := Find(Some(prefab), p.objectPath, p.siblingIndex);
    if found.Some? && found.value != [] {
      RemoveCount(prefab, found.value);
    }
  }

  /** Execute: the handler's steps. */
  method Execute(raw: Json, env: Env) returns (r: Result<Response, Exception>)
    ensures r == ExecuteOf(raw, env)
  {
    var params := ReadParams(raw, env.render);
    if params.Failure? {
      return Failure(params.error);
    }
    var p := params.value;
    var loaded := env.loadPrefab(p.prefabPath);
    if loaded.None? {
      return Failure(NotFound("Prefab not found at path: " + p.prefabPath));
    }
    var prefab := loaded.value;
    var target := FindByPath(loaded, p.objectPath, p.siblingIndex);
    if target.None? {
      return Failure(NotFound(NotFoundMessage(p)));
    }
    var loc := target.value;
    if loc == [] {
      return Failure(NotFound(CannotDeleteRootMessage(p)));
    }
    var deletedObjectPath := GetPath(prefab, target);
    var total := CountGameObjects(Some(NodeAt(prefab, loc)), true);
    var saved := env.save(Remove(prefab, loc));
    r := Success(Response(p.prefabPath, deletedObjectPath, NodeAt(prefab, loc).instanceId, 1, total, saved));
  }
}
