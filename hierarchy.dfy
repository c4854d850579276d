// HierarchyTraverser (UnitySkills/AgentCommands/Utils/HierarchyTraverser.cs): the
// hierarchy tree below a root object, with a depth limit and a filter for inactive
// objects, and its pre-order flattening.
//
// The traversed root is the object at location `root` in the scene whose top object is
// `top`, so every node's path is the object's GetPath.
module Hierarchy {
  import opened Wrappers
  import opened Scene
  import PathFinder

  datatype HierarchyNode = HierarchyNode(name: string, instanceId: int, path: string, depth: int,
                                         isActive: bool, children: seq<HierarchyNode>)

  /** The node for `g`, with its path, depth and children. */
  function NodeOf(g: GameObject, path: string, depth: int, children: seq<HierarchyNode>): (n: HierarchyNode)
    ensures n.name == g.name && n.instanceId == g.instanceId && n.isActive == g.activeSelf
    ensures n.path == path && n.depth == depth && n.children == children
  {
    HierarchyNode(g.name, g.instanceId, path, depth, g.activeSelf, children)
  }

  predicate Skipped(g: GameObject, includeInactive: bool)
  {
    !includeInactive && !g.activeSelf
  }

  /** TraverseChildren: the child nodes of `g`, at `path` and `depth`, unless the depth limit is reached. */
  function ChildNodes(g: GameObject, path: string, includeInactive: bool, maxDepth: int, depth: int): seq<HierarchyNode>
    decreases g, |g.children| + 1
  {
    if maxDepth != -1 && depth >= maxDepth then [] else Kids(g, |g.children|, path, includeInactive, maxDepth, depth)
  }

  /** The nodes the first `n` children of `g` contribute, in sibling order. */
  function Kids(g: GameObject, n: nat, path: string, includeInactive: bool, maxDepth: int, depth: int): seq<HierarchyNode>
    requires n <= |g.children|
    decreases g, n
  {
    if n == 0 then []
    else
      var c := g.children[n - 1];
      var cpath := path + "/" + c.name;
      Kids(g, n - 1, path, includeInactive, maxDepth, depth) +
      (if Skipped(c, includeInactive) then []
       else [NodeOf(c, cpath, depth + 1, ChildNodes(c, cpath, includeInactive, maxDepth, depth + 1))])
  }

  /** Traverse: None for a null root; an inactive root that is filtered out has no children. */
  function TraverseOf(top: GameObject, root: Option<Loc>, includeInactive: bool, maxDepth: int): Option<HierarchyNode>
    requires root.Some? ==> ValidLoc(top, root.value)
  {
    if root.None? then None
    else
      var g := NodeAt(top, root.value);
      var path := PathFinder.PathOf(top, root.value);
      if Skipped(g, includeInactive) then Some(NodeOf(g, path, 0, []))
      else Some(NodeOf(g, path, 0, ChildNodes(g, path, includeInactive, maxDepth, 0)))
  }

  /** Flatten: the nodes in depth-first pre-order. */
  function Preorder(n: HierarchyNode): (r: seq<HierarchyNode>)
    ensures |r| >= 1 && r[0] == n
    decreases n, 1
  {
    [n] + PreorderAll(n.children, |n.children|)
  }

  function PreorderAll(cs: seq<HierarchyNode>, k: nat): seq<HierarchyNode>
    requires k <= |cs|
    decreases cs, k
  {
    if k == 0 then [] else PreorderAll(cs, k - 1) + Preorder(cs[k - 1])
  }

  function Flattened(root: Option<HierarchyNode>): seq<HierarchyNode>
  {
    if root.None? then [] else Preorder(root.value)
  }

  /** The number of nodes in a hierarchy tree. */
  function Size(n: HierarchyNode): (r: nat)
    decreases n, 1
  {
    1 + SizeAll(n.children, |n.children|)
  }

  function SizeAll(cs: seq<HierarchyNode>, k: nat): nat
    requires k <= |cs|
    decreases cs, k
  {
    if k == 0 then 0 else SizeAll(cs, k - 1) + Size(cs[k - 1])
  }

  /** What every child node of `n` satisfies: one level deeper, its path below n's, active unless inactive objects are included, within the depth limit. */
  predicate ChildOk(n: HierarchyNode, parentPath: string, parentDepth: int, includeInactive: bool, maxDepth: int)
  {
    && n.depth == parentDepth + 1
    && n.path == parentPath + "/" + n.name
    && (!includeInactive ==> n.isActive)
    && (maxDepth != -1 ==> n.depth <= maxDepth)
  }

  predicate WellShaped(n: HierarchyNode, includeInactive: bool, maxDepth: int)
    decreases n
  {
    forall i :: 0 <= i < |n.children| ==>
      ChildOk(n.children[i], n.path, n.depth, includeInactive, maxDepth) && WellShaped(n.children[i], includeInactive, maxDepth)
  }

  // ----- the traversal's shape -----

  lemma {:induction false} KidsShaped(g: GameObject, n: nat, path: string, includeInactive: bool, maxDepth: int, depth: int)
    requires n <= |g.children|
    requires maxDepth == -1 || depth < maxDepth
    ensures forall i :: 0 <= i < |Kids(g, n, path, includeInactive, maxDepth, depth)| ==>
              && ChildOk(Kids(g, n, path, includeInactive, maxDepth, depth)[i], path, depth, includeInactive, maxDepth)
              && WellShaped(Kids(g, n, path, includeInactive, maxDepth, depth)[i], includeInactive, maxDepth)
    decreases g, n
  {
    if n > 0 {
      var c := g.children[n - 1];
      var cpath := path + "/" + c.name;
      KidsShaped(g, n - 1, path, includeInactive, maxDepth, depth);
      ChildNodesShaped(c, cpath, includeInactive, maxDepth, depth + 1);
      var ks := Kids(g, n, path, includeInactive, maxDepth, depth);
      var init := Kids(g, n - 1, path, includeInactive, maxDepth, depth);
      if !Skipped(c, includeInactive) {
        var node := NodeOf(c, cpath, depth + 1, ChildNodes(c, cpath, includeInactive, maxDepth, depth + 1));
        assert ks == init + [node];
        assert ChildOk(node, path, depth, includeInactive, maxDepth);
        forall i | 0 <= i < |ks|
          ensures ChildOk(ks[i], path, depth, includeInactive, maxDepth) && WellShaped(ks[i], includeInactive, maxDepth)
        {
          if i < |init| {
            assert ks[i] == init[i];
          } else {
            assert ks[i] == node;
          }
        }
      } else {
        assert ks == init + [];
      }
    }
  }

  lemma {:induction false} ChildNodesShaped(g: GameObject, path: string, includeInactive: bool, maxDepth: int, depth: int)
    ensures WellShaped(NodeOf(g, path, depth, ChildNodes(g, path, includeInactive, maxDepth, depth)), includeInactive, maxDepth)
    decreases g, |g.children| + 1
  {
    var n := NodeOf(g, path, depth, ChildNodes(g, path, includeInactive, maxDepth, depth));
    if !(maxDepth != -1 && depth >= maxDepth) {
      KidsShaped(g, |g.children|, path, includeInactive, maxDepth, depth);
      assert n.children == Kids(g, |g.children|, path, includeInactive, maxDepth, depth);
    }
  }

  /**
   * A traversal from a present root starts at depth 0 with the root's path, and every
   * child node is one level deeper than its parent, has the path GetPath gives its
   * object, is within the depth limit and, unless inactive objects are included, active.
   * A filtered-out inactive root has no children.
   */
  lemma TraverseShape(top: GameObject, root: Loc, includeInactive: bool, maxDepth: int)
    requires ValidLoc(top, root)
    ensures var r := TraverseOf(top, Some(root), includeInactive, maxDepth);
            && r.Some?
            && r.value.depth == 0 && r.value.path == PathFinder.PathOf(top, root)
            && r.value.name == NodeAt(top, root).name
            && WellShaped(r.value, includeInactive, maxDepth)
            && (Skipped(NodeAt(top, root), includeInactive) ==> r.value.children == [])
  {
    ChildNodesShaped(NodeAt(top, root), PathFinder.PathOf(top, root), includeInactive, maxDepth, 0);
  }

  // ----- the flattened list -----

  lemma {:induction false} PreorderSize(n: HierarchyNode)
    ensures |Preorder(n)| == Size(n)
    decreases n, 1
  {
    PreorderAllSize(n.children, |n.children|);
  }

  lemma {:induction false} PreorderAllSize(cs: seq<HierarchyNode>, k: nat)
    requires k <= |cs|
    ensures |PreorderAll(cs, k)| == SizeAll(cs, k)
    decreases cs, k
  {
    if k > 0 {
      PreorderAllSize(cs, k - 1);
      PreorderSize(cs[k - 1]);
    }
  }

  /** The properties every node below the top of a well-shaped tree has. */
  predicate Below(x: HierarchyNode, topDepth: int, includeInactive: bool, maxDepth: int)
  {
    && x.depth > topDepth
    && (!includeInactive ==> x.isActive)
    && (maxDepth != -1 ==> x.depth <= maxDepth)
  }

  lemma {:induction false} PreorderBelow(n: HierarchyNode, includeInactive: bool, maxDepth: int)
    requires WellShaped(n, includeInactive, maxDepth)
    ensures forall k :: 1 <= k < |Preorder(n)| ==> Below(Preorder(n)[k], n.depth, includeInactive, maxDepth)
    decreases n, 1
  {
    PreorderAllBelow(n.children, |n.children|, n.path, n.depth, includeInactive, maxDepth);
    var r := Preorder(n);
    var rest := PreorderAll(n.children, |n.children|);
    forall k | 1 <= k < |r| ensures Below(r[k], n.depth, includeInactive, maxDepth) {
      assert r[k] == rest[k - 1];
    }
  }

  lemma {:induction false} PreorderAllBelow(cs: seq<HierarchyNode>, k: nat, path: string, depth: int, includeInactive: bool, maxDepth: int)
    requires k <= |cs|
    requires forall i :: 0 <= i < |cs| ==> ChildOk(cs[i], path, depth, includeInactive, maxDepth) && WellShaped(cs[i], includeInactive, maxDepth)
    ensures forall j :: 0 <= j < |PreorderAll(cs, k)| ==> Below(PreorderAll(cs, k)[j], depth, includeInactive, maxDepth)
    decreases cs, k
  {
    if k > 0 {
      var c := cs[k - 1];
      PreorderAllBelow(cs, k - 1, path, depth, includeInactive, maxDepth);
      PreorderBelow(c, includeInactive, maxDepth);
      var init := PreorderAll(cs, k - 1);
      var tail := Preorder(c);
      var r := PreorderAll(cs, k);
      forall j | 0 <= j < |r| ensures Below(r[j], depth, includeInactive, maxDepth) {
        if j < |init| {
          assert r[j] == init[j];
        } else {
          assert r[j] == tail[j - |init|];
        }
      }
    }
  }

  /**
   * Flatten of a traversal: the root node first, at depth 0; every later node deeper,
   * within the depth limit, and active unless inactive objects are included; as many
   * nodes as the tree has.
   */
  lemma FlattenedTraversal(top: GameObject, root: Loc, includeInactive: bool, maxDepth: int)
    requires ValidLoc(top, root)
    ensures var r := TraverseOf(top, Some(root), includeInactive, maxDepth);
            var flat := Flattened(r);
            && |flat| == Size(r.value)
            && flat[0] == r.value && flat[0].depth == 0
            && forall k :: 1 <= k < |flat| ==> Below(flat[k], 0, includeInactive, maxDepth)
  {
    TraverseShape(top, root, includeInactive, maxDepth);
    var r := TraverseOf(top, Some(root), includeInactive, maxDepth);
    PreorderSize(r.value);
    PreorderBelow(r.value, includeInactive, maxDepth);
  }

  // ----- nothing is lost without filters -----

  lemma {:induction false} KidsComplete(g: GameObject, n: nat, path: string, depth: int)
    requires n <= |g.children|
    ensures var ks := Kids(g, n, path, true, -1, depth);
            |ks| == n && SizeAll(ks, n) == CountAll(g.children, n)
    decreases g, n
  {
    if n > 0 {
      var c := g.children[n - 1];
      var cpath := path + "/" + c.name;
      KidsComplete(g, n - 1, path, depth);
      ChildNodesComplete(c, cpath, depth + 1);
      var ks := Kids(g, n, path, true, -1, depth);
      var init := Kids(g, n - 1, path, true, -1, depth);
      SizeAllPrefix(init, ks, n - 1);
    }
  }

  lemma {:induction false} SizeAllPrefix(init: seq<HierarchyNode>, cs: seq<HierarchyNode>, k: nat)
    requires k <= |init| <= |cs| && init == cs[..|init|]
    ensures SizeAll(init, k) == SizeAll(cs, k)
    decreases k
  {
    if k > 0 {
      assert init[k - 1] == cs[k - 1];
      SizeAllPrefix(init, cs, k - 1);
    }
  }

  lemma {:induction false} ChildNodesComplete(g: GameObject, path: string, depth: int)
    ensures Size(NodeOf(g, path, depth, ChildNodes(g, path, true, -1, depth))) == Count(g)
    decreases g, |g.children| + 1
  {
    KidsComplete(g, |g.children|, path, depth);
  }

  /** With inactive objects included and no depth limit, the traversal has one node per game object. */
  lemma FullTraversalCount(top: GameObject, root: Loc)
    requires ValidLoc(top, root)
    ensures |Flattened(TraverseOf(top, Some(root), true, -1))| == Count(NodeAt(top, root))
  {
    var g := NodeAt(top, root);
    var path := PathFinder.PathOf(top, root);
    ChildNodesComplete(g, path, 0);
    PreorderSize(TraverseOf(top, Some(root), true, -1).value);
  }

  // ----- the methods -----

  /** Traverse. */
  method Traverse(top: GameObject, root: Option<Loc>, includeInactive: bool, maxDepth: int) returns (r: Option<HierarchyNode>)
    requires root.Some? ==> ValidLoc(top, root.value)
    ensures r == TraverseOf(top, root, includeInactive, maxDepth)
  {
    if root.None? {
      return None;
    }
    var g := NodeAt(top, root.value);
    var path := PathFinder.GetPath(top, root);
    if !includeInactive && !g.activeSelf {
      return Some(NodeOf(g, path, 0, []));
    }
    var children := TraverseChildren(top, root.value, path, includeInactive, maxDepth, 0);
    return Some(NodeOf(g, path, 0, children));
  }

  /**
   * TraverseChildren: each child that passes the filter gets a node, with the path
   * GetPath gives it, and then its own children, unless the depth limit is reached.
   */
  method TraverseChildren(top: GameObject, loc: Loc, path: string, includeInactive: bool, maxDepth: int, currentDepth: int)
    returns (children: seq<HierarchyNode>)
    requires ValidLoc(top, loc) && path == PathFinder.PathOf(top, loc)
    ensures children == ChildNodes(NodeAt(top, loc), path, includeInactive, maxDepth, currentDepth)
    decreases NodeAt(top, loc)
  {
    var parent := NodeAt(top, loc);
    if maxDepth != -1 && currentDepth >= maxDepth {
      return [];
    }
    children := [];
    var j := 0;
    while j < |parent.children|
      invariant 0 <= j <= |parent.children|
      invariant children == Kids(parent, j, path, includeInactive, maxDepth, currentDepth)
    {
      var child := parent.children[j];
      if !includeInactive && !child.activeSelf {
        j := j + 1;
        continue;
      }
      ChildLoc(top, loc, j);
      PathFinder.ChildPath(top, loc, j);
      var childPath := PathFinder.GetPath(top, Some(loc + [j]));
      var grandchildren := TraverseChildren(top, loc + [j], childPath, includeInactive, maxDepth, currentDepth + 1);
      children := children + [NodeOf(child, childPath, currentDepth + 1, grandchildren)];
      j := j + 1;
    }
  }

  /** Flatten. */
  method Flatten(root: Option<HierarchyNode>) returns (result: seq<HierarchyNode>)
    ensures result == Flattened(root)
  {
    result := [];
    if root.None? {
      return;
    }
    result := FlattenRecursive(root.value, result);
  }

  /** FlattenRecursive: the node, then each child's subtree in turn, appended to `result`. */
  method FlattenRecursive(node: HierarchyNode, result: seq<HierarchyNode>) returns (result': seq<HierarchyNode>)
    ensures result' == result + Preorder(node)
    decreases node
  {
    result' := result + [node];
    var i := 0;
    while i < |node.children|
      invariant 0 <= i <= |node.children|
      invariant result' == result + [node] + PreorderAll(node.children, i)
    {
      result' := FlattenRecursive(node.children[i], result');
      i := i + 1;
    }
  }
}
