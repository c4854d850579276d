// GameObjectPathFinder, in its two copies: FindByPath resolves a '/'-separated
// hierarchy path below a root object, GetPath writes an object's path from the top of
// its scene. The UnityAgentSkills copy (UnityAgentSkills/Utils/GameObjectPathFinder.cs)
// takes a sibling index for the last segment; the UnitySkills copy
// (UnitySkills/AgentCommands/Utils/GameObjectPathFinder.cs) takes the first
// same-named child at every segment.
//
// A found object is returned as its location below the root, and a null root or object
// as None.
module PathFinder {
  import opened Wrappers
  import opened Text
  import opened Scene

  /** The number of objects in `cs` named `name`. */
  function CountNamed(cs: seq<GameObject>, name: string): (r: nat)
    ensures r <= |cs|
  {
    if cs == [] then 0 else (if cs[0].name == name then 1 else 0) + CountNamed(cs[1..], name)
  }

  /**
   * The inner loop of FindByPath from child `j` on, `seen` same-named children already
   * passed: the child where the count of same-named children reaches `want`.
   */
  function MatchFrom(cs: seq<GameObject>, name: string, want: int, j: nat, seen: nat): (r: Option<nat>)
    requires j <= |cs|
    ensures r.Some? ==> j <= r.value < |cs| && cs[r.value].name == name
    decreases |cs| - j
  {
    if j == |cs| then None
    else if cs[j].name == name then
      if seen == want then Some(j) else MatchFrom(cs, name, want, j + 1, seen + 1)
    else MatchFrom(cs, name, want, j + 1, seen)
  }

  /** The child a segment selects: the `siblingIndex`-th same-named child at the last segment, else the first. */
  function Step(cs: seq<GameObject>, name: string, isLast: bool, siblingIndex: int): Option<nat>
  {
    MatchFrom(cs, name, if isLast then siblingIndex else 0, 0, 0)
  }

  /** The location below `g` that the segments `parts[i..]` lead to. */
  function Descend(g: GameObject, parts: seq<string>, i: nat, siblingIndex: int): Option<Loc>
    requires i <= |parts|
    decreases |parts| - i
  {
    if i == |parts| then Some([])
    else match Step(g.children, parts[i], i == |parts| - 1, siblingIndex)
      case None => None
      case Some(j) =>
        (match Descend(g.children[j], parts, i + 1, siblingIndex)
         case None => None
         case Some(rest) => Some([j] + rest))
  }

  /** FindByPath of the UnityAgentSkills copy. */
  function Find(root: Option<GameObject>, path: string, siblingIndex: int): Option<Loc>
  {
    if root.None? || path == "" then None
    else if path == root.value.name then Some([])
    else
      var parts := Split(path, '/');
      if parts[0] != root.value.name then None else Descend(root.value, parts, 1, siblingIndex)
  }

  /** The inner loop of the UnitySkills copy: the first child from `j` on named `name`. */
  function FirstNamed(cs: seq<GameObject>, name: string, j: nat): (r: Option<nat>)
    requires j <= |cs|
    ensures r.Some? ==> j <= r.value < |cs| && cs[r.value].name == name
    decreases |cs| - j
  {
    if j == |cs| then None else if cs[j].name == name then Some(j) else FirstNamed(cs, name, j + 1)
  }

  function DescendFirst(g: GameObject, parts: seq<string>, i: nat): Option<Loc>
    requires i <= |parts|
    decreases |parts| - i
  {
    if i == |parts| then Some([])
    else match FirstNamed(g.children, parts[i], 0)
      case None => None
      case Some(j) =>
        (match DescendFirst(g.children[j], parts, i + 1)
         case None => None
         case Some(rest) => Some([j] + rest))
  }

  /** FindByPath of the UnitySkills copy. */
  function FindFirst(root: Option<GameObject>, path: string): Option<Loc>
  {
    if root.None? || path == "" then None
    else if path == root.value.name then Some([])
    else
      var parts := Split(path, '/');
      if parts[0] != root.value.name then None else DescendFirst(root.value, parts, 1)
  }

  /** Names joined with '/'. */
  function JoinPath(names: seq<string>): string
    requires |names| >= 1
    decreases |names|
  {
    if |names| == 1 then names[0] else names[0] + "/" + JoinPath(names[1..])
  }

  /** GetPath of the object at `loc` in the tree whose top object is `top`. */
  function PathOf(top: GameObject, loc: Loc): string
    requires ValidLoc(top, loc)
  {
    JoinPath(NamesAlong(top, loc))
  }

  /**
   * How FindByPath picks each step of `loc`: the first child with its name, and at the
   * last step the `siblingIndex`-th child with its name.
   */
  predicate Reachable(g: GameObject, loc: Loc, siblingIndex: int)
    requires ValidLoc(g, loc)
    decreases loc
  {
    loc == [] ||
    (var cs := g.children;
     && CountNamed(cs[..loc[0]], cs[loc[0]].name) == (if |loc| == 1 then siblingIndex else 0)
     && Reachable(cs[loc[0]], loc[1..], siblingIndex))
  }

  predicate NoSeparatorInNames(names: seq<string>)
  {
    forall k :: 0 <= k < |names| ==> '/' !in names[k]
  }

  // ----- the inner loop -----

  lemma CountNamedFront(cs: seq<GameObject>, name: string, from: nat, j: nat)
    requires from < j <= |cs|
    ensures CountNamed(cs[from..j], name) == (if cs[from].name == name then 1 else 0) + CountNamed(cs[from + 1..j], name)
  {
    assert cs[from..j][0] == cs[from] && cs[from..j][1..] == cs[from + 1..j];
  }

  /** The inner loop stops at the one same-named child with exactly `want` same-named children before it. */
  lemma {:induction false} MatchFromMeaning(cs: seq<GameObject>, name: string, want: int, from: nat, seen: nat, j: nat)
    requires from <= |cs|
    ensures MatchFrom(cs, name, want, from, seen) == Some(j) <==>
            from <= j < |cs| && cs[j].name == name && seen + CountNamed(cs[from..j], name) == want
    decreases |cs| - from
  {
    if from < |cs| {
      if from < j <= |cs| {
        CountNamedFront(cs, name, from, j);
      }
      if cs[from].name == name {
        if seen != want {
          MatchFromMeaning(cs, name, want, from + 1, seen + 1, j);
        }
      } else {
        MatchFromMeaning(cs, name, want, from + 1, seen, j);
      }
    }
  }

  /** With no same-named child passed and none wanted, the inner loop stops at the first same-named child. */
  lemma {:induction false} FirstNamedIsMatchZero(cs: seq<GameObject>, name: string, j: nat)
    requires j <= |cs|
    ensures FirstNamed(cs, name, j) == MatchFrom(cs, name, 0, j, 0)
    decreases |cs| - j
  {
    if j < |cs| && cs[j].name != name {
      FirstNamedIsMatchZero(cs, name, j + 1);
    }
  }

  // ----- what FindByPath finds -----

  /**
   * The segments `parts[i..]` lead from `g` to `loc` exactly when they are the names on
   * the way to `loc` and every step is the child FindByPath picks.
   */
  lemma {:induction false} DescendMeaning(g: GameObject, parts: seq<string>, i: nat, siblingIndex: int, loc: Loc)
    requires i <= |parts|
    ensures Descend(g, parts, i, siblingIndex) == Some(loc) <==>
            ValidLoc(g, loc) && parts[i..] == NamesBelow(g, loc) && Reachable(g, loc, siblingIndex)
    decreases |parts| - i
  {
    var cs := g.children;
    if i == |parts| {
      if loc != [] && ValidLoc(g, loc) {
        assert |NamesBelow(g, loc)| > 0;
      }
    } else {
      var isLast := i == |parts| - 1;
      var want := if isLast then siblingIndex else 0;
      if loc != [] && loc[0] < |cs| {
        var c := cs[loc[0]];
        MatchFromMeaning(cs, parts[i], want, 0, 0, loc[0]);
        assert cs[0..loc[0]] == cs[..loc[0]];
        DescendMeaning(c, parts, i + 1, siblingIndex, loc[1..]);
        assert [loc[0]] + loc[1..] == loc;
        if ValidLoc(g, loc) && parts[i..] == NamesBelow(g, loc) {
          assert parts[i + 1..] == parts[i..][1..];
          assert isLast <==> |loc| == 1;
        }
        if Descend(g, parts, i, siblingIndex) == Some(loc) {
          assert parts[i..] == [parts[i]] + parts[i + 1..];
          assert isLast <==> |loc| == 1 by {
            assert |parts[i + 1..]| == |loc[1..]|;
          }
        }
      } else if loc != [] {
        match Step(cs, parts[i], isLast, siblingIndex) {
          case None =>
          case Some(j) =>
            MatchFromMeaning(cs, parts[i], want, 0, 0, j);
        }
      } else {
        assert parts[i..] != [];
      }
    }
  }

  /**
   * FindByPath (UnityAgentSkills copy) finds an object below the root exactly when the
   * path is not the root's own name, its segments are the root's name followed by the
   * names down to the object, every intermediate step is the first child with its name,
   * and the object is the `siblingIndex`-th child of its parent with its name.
   */
  lemma FindMeaning(top: GameObject, path: string, siblingIndex: int, loc: Loc)
    requires loc != []
    ensures Find(Some(top), path, siblingIndex) == Some(loc) <==>
            && path != top.name
            && ValidLoc(top, loc)
            && Split(path, '/') == NamesAlong(top, loc)
            && Reachable(top, loc, siblingIndex)
  {
    var parts := Split(path, '/');
    DescendMeaning(top, parts, 1, siblingIndex, loc);
    if Find(Some(top), path, siblingIndex) == Some(loc) {
      assert path != "" && path != top.name && parts[0] == top.name;
      assert parts == [parts[0]] + parts[1..];
    }
    if path != top.name && ValidLoc(top, loc) && parts == NamesAlong(top, loc) && Reachable(top, loc, siblingIndex) {
      assert parts[1..] == NamesBelow(top, loc);
      assert path != "" by {
        SplitNoSeparator("", '/');
      }
    }
  }

  /** A null root or an empty path finds nothing; the root's own name finds the root, whatever the sibling index. */
  lemma FindEdgeCases(root: Option<GameObject>, path: string, siblingIndex: int)
    ensures root.None? || path == "" ==> Find(root, path, siblingIndex).None?
    ensures root.Some? && path != "" && path == root.value.name ==> Find(root, path, siblingIndex) == Some([])
    ensures root.Some? && path != root.value.name && Split(path, '/')[0] != root.value.name ==> Find(root, path, siblingIndex).None?
  {
  }

  /** What Find returns is a location in the tree. */
  lemma FindValid(top: GameObject, path: string, siblingIndex: int)
    ensures Find(Some(top), path, siblingIndex).Some? ==> ValidLoc(top, Find(Some(top), path, siblingIndex).value)
  {
    var r := Find(Some(top), path, siblingIndex);
    if r.Some? && r.value != [] {
      FindMeaning(top, path, siblingIndex, r.value);
    }
  }

  /** The UnitySkills copy finds what the UnityAgentSkills copy finds with sibling index 0. */
  lemma {:induction false} FindFirstAgrees(root: Option<GameObject>, path: string)
    ensures FindFirst(root, path) == Find(root, path, 0)
  {
    if root.Some? && path != "" && path != root.value.name {
      var parts := Split(path, '/');
      DescendFirstAgrees(root.value, parts, 1);
    }
  }

  lemma {:induction false} DescendFirstAgrees(g: GameObject, parts: seq<string>, i: nat)
    requires i <= |parts|
    ensures DescendFirst(g, parts, i) == Descend(g, parts, i, 0)
    decreases |parts| - i
  {
    if i < |parts| {
      FirstNamedIsMatchZero(g.children, parts[i], 0);
      match FirstNamed(g.children, parts[i], 0) {
        case None =>
        case Some(j) => DescendFirstAgrees(g.children[j], parts, i + 1);
      }
    }
  }

  // ----- GetPath -----

  lemma {:induction false} SplitJoin(names: seq<string>)
    requires |names| >= 1 && NoSeparatorInNames(names)
    ensures Split(JoinPath(names), '/') == names
    decreases |names|
  {
    if |names| == 1 {
      SplitNoSeparator(names[0], '/');
    } else {
      assert NoSeparatorInNames(names[1..]) by {
        forall k | 0 <= k < |names[1..]| ensures '/' !in names[1..][k] {
          assert names[1..][k] == names[k + 1];
        }
      }
      SplitJoin(names[1..]);
      assert '/' !in names[0] by { assert names[0] == names[0]; }
      SplitFirst(names[0], JoinPath(names[1..]), '/');
      assert names == [names[0]] + names[1..];
    }
  }

  lemma {:induction false} JoinSnoc(names: seq<string>, name: string)
    requires |names| >= 1
    ensures JoinPath(names + [name]) == JoinPath(names) + "/" + name
    decreases |names|
  {
    if |names| > 1 {
      assert (names + [name])[1..] == names[1..] + [name];
      JoinSnoc(names[1..], name);
    }
  }

  /** A child's path is its parent's path, '/', and its own name. */
  lemma ChildPath(top: GameObject, loc: Loc, j: nat)
    requires ValidLoc(top, loc) && j < |NodeAt(top, loc).children|
    ensures ValidLoc(top, loc + [j])
    ensures PathOf(top, loc + [j]) == PathOf(top, loc) + "/" + NodeAt(top, loc).children[j].name
  {
    ChildLoc(top, loc, j);
    assert NamesAlong(top, loc + [j]) == NamesAlong(top, loc) + [NodeAt(top, loc).children[j].name];
    JoinSnoc(NamesAlong(top, loc), NodeAt(top, loc).children[j].name);
  }

  /**
   * GetPath and FindByPath (UnityAgentSkills copy) round-trip: when no name on the way
   * contains '/', the path of an object found from its scene's top object by first-named
   * steps, with its rank among same-named siblings as sibling index, leads back to it.
   */
  lemma FindPathOf(top: GameObject, loc: Loc, siblingIndex: int)
    requires ValidLoc(top, loc) && NoSeparatorInNames(NamesAlong(top, loc))
    requires Reachable(top, loc, siblingIndex)
    requires loc == [] ==> top.name != ""
    ensures Find(Some(top), PathOf(top, loc), siblingIndex) == Some(loc)
  {
    var names := NamesAlong(top, loc);
    if loc != [] {
      SplitJoin(names);
      var path := PathOf(top, loc);
      assert path == top.name + "/" + JoinPath(names[1..]);
      assert path != top.name by { assert |path| > |top.name|; }
      FindMeaning(top, path, siblingIndex, loc);
    }
  }

  /** The same round trip for the UnitySkills copy, where every step is the first child with its name. */
  lemma FindFirstPathOf(top: GameObject, loc: Loc)
    requires ValidLoc(top, loc) && NoSeparatorInNames(NamesAlong(top, loc))
    requires Reachable(top, loc, 0)
    requires loc == [] ==> top.name != ""
    ensures FindFirst(Some(top), PathOf(top, loc)) == Some(loc)
  {
    FindPathOf(top, loc, 0);
    FindFirstAgrees(Some(top), PathOf(top, loc));
  }

  // ----- the two copies' loops -----

  /** The location in `top` that `rest`, found below the object at `loc`, names. */
  function Under(loc: Loc, rest: Option<Loc>): Option<Loc>
  {
    match rest
    case None => None
    case Some(r) => Some(loc + r)
  }

  /** The inner loop: the child the segment selects, or None. */
  method FindChild(cs: seq<GameObject>, name: string, isLast: bool, siblingIndex: int) returns (found: Option<nat>)
    ensures found == Step(cs, name, isLast, siblingIndex)
    ensures found.Some? ==> found.value < |cs|
  {
    var currentSiblingIndex := 0;
    var j := 0;
    while j < |cs|
      invariant 0 <= j <= |cs|
      invariant isLast || currentSiblingIndex == 0
      invariant Step(cs, name, isLast, siblingIndex) == MatchFrom(cs, name, if isLast then siblingIndex else 0, j, currentSiblingIndex)
    {
      if cs[j].name == name {
        if isLast {
          if currentSiblingIndex == siblingIndex {
            return Some(j);
          }
          currentSiblingIndex := currentSiblingIndex + 1;
        } else {
          return Some(j);
        }
      }
      j := j + 1;
    }
    return None;
  }

  /** FindByPath (UnityAgentSkills copy). */
  method FindByPath(root: Option<GameObject>, path: string, siblingIndex: int) returns (r: Option<Loc>)
    ensures r == Find(root, path, siblingIndex)
    ensures r.Some? ==> ValidLoc(root.value, r.value)
  {
    if root.None? || path == "" {
      return None;
    }
    var top := root.value;
    if path == top.name {
      return Some([]);
    }
    var parts := Split(path, '/');
    if parts[0] != top.name {
      return None;
    }
    var current := top;
    var loc: Loc := [];
    assert forall rest: Loc :: [] + rest == rest;
    var i := 1;
    while i < |parts|
      invariant 1 <= i <= |parts|
      invariant ValidLoc(top, loc) && current == NodeAt(top, loc)
      invariant Descend(top, parts, 1, siblingIndex) == Under(loc, Descend(current, parts, i, siblingIndex))
      decreases |parts| - i
    {
      var found := FindChild(current.children, parts[i], i == |parts| - 1, siblingIndex);
      if found.None? {
        return None;
      }
      ChildLoc(top, loc, found.value);
      assert Descend(current, parts, i, siblingIndex) == Under([found.value], Descend(current.children[found.value], parts, i + 1, siblingIndex));
      assert forall rest: Loc :: loc + ([found.value] + rest) == (loc + [found.value]) + rest;
      current := current.children[found.value];
      loc := loc + [found.value];
      i := i + 1;
    }
    assert loc + [] == loc;
    return Some(loc);
  }

  /** The inner loop of the UnitySkills copy. */
  method FindFirstChild(cs: seq<GameObject>, name: string) returns (found: Option<nat>)
    ensures found == FirstNamed(cs, name, 0)
    ensures found.Some? ==> found.value < |cs|
  {
    var j := 0;
    while j < |cs|
      invariant 0 <= j <= |cs|
      invariant FirstNamed(cs, name, 0) == FirstNamed(cs, name, j)
    {
      if cs[j].name == name {
        return Some(j);
      }
      j := j + 1;
    }
    return None;
  }

  /** FindByPath (UnitySkills copy). */
  method FindByPathFirst(root: Option<GameObject>, path: string) returns (r: Option<Loc>)
    ensures r == FindFirst(root, path)
    ensures r.Some? ==> ValidLoc(root.value, r.value)
  {
    if root.None? || path == "" {
      return None;
    }
    var top := root.value;
    if path == top.name {
      return Some([]);
    }
    var parts := Split(path, '/');
    if parts[0] != top.name {
      return None;
    }
    var current := top;
    var loc: Loc := [];
    assert forall rest: Loc :: [] + rest == rest;
    var i := 1;
    while i < |parts|
      invariant 1 <= i <= |parts|
      invariant ValidLoc(top, loc) && current == NodeAt(top, loc)
      invariant DescendFirst(top, parts, 1) == Under(loc, DescendFirst(current, parts, i))
      decreases |parts| - i
    {
      var found := FindFirstChild(current.children, parts[i]);
      if found.None? {
        return None;
      }
      ChildLoc(top, loc, found.value);
      assert DescendFirst(current, parts, i) == Under([found.value], DescendFirst(current.children[found.value], parts, i + 1));
      assert forall rest: Loc :: loc + ([found.value] + rest) == (loc + [found.value]) + rest;
      current := current.children[found.value];
      loc := loc + [found.value];
      i := i + 1;
    }
    assert loc + [] == loc;
    return Some(loc);
  }

  /**
   * GetPath (both copies): "" for a null object; otherwise the names from the top of the
   * scene down to the object, joined with '/', built by walking up the parents.
   */
  method GetPath(top: GameObject, go: Option<Loc>) returns (path: string)
    requires go.Some? ==> ValidLoc(top, go.value)
    ensures go.None? ==> path == ""
    ensures go.Some? ==> path == PathOf(top, go.value)
  {
    if go.None? {
      return "";
    }
    var loc := go.value;
    ghost var names := NamesAlong(top, loc);
    path := NodeAt(top, loc).name;
    var k := |loc|;
    while k > 0
      invariant 0 <= k <= |loc|
      invariant path == JoinPath(names[k..])
    {
      k := k - 1;
      AncestorLoc(top, loc, k);
      assert NodeAt(top, loc[..k]).name == names[k];
      assert names[k..][1..] == names[k + 1..];
      path := NodeAt(top, loc[..k]).name + "/" + path;
    }
    assert names[0..] == names;
  }
}
