// The Unity scene objects the editor tools read and edit, as values: a game object
// with the properties the tools touch, its components, and its children in sibling
// order. A game object inside a tree is named by its location: the child indices that
// lead to it from the top of the tree, so two same-named siblings stay apart.
module Scene {
  import opened Wrappers

  /** The fields a K3 button or label adds to a K3 component. */
  datatype K3Kind = K3Button(interactable: bool) | K3Label(text: string) | K3Other

  /** A K3 component's K3Property record. */
  datatype K3Property = K3Property(parentID: nat, maxID: nat)

  /**
   * The fields of a K3 component (IK3Component). `id` is None when reading ID throws, as
   * it can for a component with broken serialised fields; a null atlas or picture name
   * reads as "".
   */
  datatype K3Fields = K3Fields(id: Option<nat>, alpha: real, atlasName: string, picName: string,
                               x: real, y: real, kind: K3Kind, property: Option<K3Property>)

  /** A component: its type name and, for a K3 component, its K3 fields. */
  datatype Component = Component(typeName: string, k3: Option<K3Fields>)

  datatype GameObject = GameObject(name: string, instanceId: int, tag: string, layer: int,
                                   activeSelf: bool, isStatic: bool, hideFlags: int,
                                   components: seq<Component>, children: seq<GameObject>)

  /** The child indices leading from a tree's top object to one of its objects. */
  type Loc = seq<nat>

  predicate ValidLoc(g: GameObject, loc: Loc)
    decreases loc
  {
    loc == [] || (loc[0] < |g.children| && ValidLoc(g.children[loc[0]], loc[1..]))
  }

  function NodeAt(g: GameObject, loc: Loc): GameObject
    requires ValidLoc(g, loc)
    decreases loc
  {
    if loc == [] then g else NodeAt(g.children[loc[0]], loc[1..])
  }

  /** The names of the objects below `g` on the way to `loc`, the target's last. */
  function NamesBelow(g: GameObject, loc: Loc): (r: seq<string>)
    requires ValidLoc(g, loc)
    ensures |r| == |loc|
    ensures loc != [] ==> r[|loc| - 1] == NodeAt(g, loc).name
    decreases loc
  {
    if loc == [] then [] else [g.children[loc[0]].name] + NamesBelow(g.children[loc[0]], loc[1..])
  }

  /** The names of the objects from `g` down to the one at `loc`. */
  function NamesAlong(g: GameObject, loc: Loc): (r: seq<string>)
    requires ValidLoc(g, loc)
    ensures |r| == |loc| + 1 && r[0] == g.name && r[|loc|] == NodeAt(g, loc).name
  {
    [g.name] + NamesBelow(g, loc)
  }

  /** One more step down: the location of a child of the object at `loc`. */
  lemma {:induction false} ChildLoc(g: GameObject, loc: Loc, j: nat)
    requires ValidLoc(g, loc) && j < |NodeAt(g, loc).children|
    ensures ValidLoc(g, loc + [j])
    ensures NodeAt(g, loc + [j]) == NodeAt(g, loc).children[j]
    ensures NamesBelow(g, loc + [j]) == NamesBelow(g, loc) + [NodeAt(g, loc).children[j].name]
    decreases loc
  {
    if loc != [] {
      assert (loc + [j])[0] == loc[0] && (loc + [j])[1..] == loc[1..] + [j];
      ChildLoc(g.children[loc[0]], loc[1..], j);
    }
  }

  /** A prefix of a location is the location of an ancestor, reached through the first names. */
  lemma {:induction false} AncestorLoc(g: GameObject, loc: Loc, k: nat)
    requires ValidLoc(g, loc) && k <= |loc|
    ensures ValidLoc(g, loc[..k])
    ensures NamesAlong(g, loc[..k]) == NamesAlong(g, loc)[..k + 1]
    decreases loc
  {
    if k > 0 {
      assert loc[..k][0] == loc[0] && loc[..k][1..] == loc[1..][..k - 1];
      AncestorLoc(g.children[loc[0]], loc[1..], k - 1);
    }
  }

  /** The object at a non-root location is a child of the object at its parent location. */
  lemma {:induction false} ParentLoc(g: GameObject, loc: Loc)
    requires ValidLoc(g, loc) && loc != []
    ensures ValidLoc(g, loc[..|loc| - 1])
    ensures loc[|loc| - 1] < |NodeAt(g, loc[..|loc| - 1]).children|
    ensures NodeAt(g, loc) == NodeAt(g, loc[..|loc| - 1]).children[loc[|loc| - 1]]
    decreases loc
  {
    if |loc| > 1 {
      var rest := loc[1..];
      ParentLoc(g.children[loc[0]], rest);
      assert loc[..|loc| - 1][0] == loc[0] && loc[..|loc| - 1][1..] == rest[..|rest| - 1];
    }
  }

  /** Whether `anc` is `loc` itself or one of its ancestors. */
  predicate IsPrefix(anc: Loc, loc: Loc)
  {
    |anc| <= |loc| && loc[..|anc|] == anc
  }

  /** The number of game objects in a tree: the object and all its descendants. */
  function Count(g: GameObject): (r: nat)
    ensures r >= 1
    decreases g, 1
  {
    1 + CountAll(g.children, |g.children|)
  }

  /** The number of game objects in the first `n` subtrees of `cs`. */
  function CountAll(cs: seq<GameObject>, n: nat): (r: nat)
    requires n <= |cs|
    decreases cs, n
  {
    if n == 0 then 0 else CountAll(cs, n - 1) + Count(cs[n - 1])
  }
}
