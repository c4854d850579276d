// K3ComponentFinder (UnitySkills/AgentCommands/Plugins/K3Prefab/Utils/K3ComponentFinder.cs):
// finds the K3 components of a prefab that carry a given K3 ID, numbers the matches,
// and names for each the nearest enclosing K3DialogEx or K3Panel game object.
//
// A component is named by a CompRef: the location of its game object in the prefab
// and its position in that object's component list.
module K3Finder {
  import opened Wrappers
  import opened Scene

  datatype CompRef = CompRef(loc: Loc, index: nat)

  /** A K3ComponentMatch: its number among the matches, the component, the container and its type. */
  datatype Match = Match(index: nat, component: CompRef, container: Loc, containerType: string)

  /** `r` names a K3 component of the prefab `top`. */
  predicate IsK3At(top: GameObject, r: CompRef)
  {
    && ValidLoc(top, r.loc)
    && r.index < |NodeAt(top, r.loc).components|
    && NodeAt(top, r.loc).components[r.index].k3.Some?
  }

  function FieldsAt(top: GameObject, r: CompRef): K3Fields
    requires IsK3At(top, r)
  {
    NodeAt(top, r.loc).components[r.index].k3.value
  }

  function TypeNameAt(top: GameObject, r: CompRef): string
    requires IsK3At(top, r)
  {
    NodeAt(top, r.loc).components[r.index].typeName
  }

  // ----- GetComponentsInChildren<IK3Component>(true) -----

  /** The positions of the K3 components among the first `n` components of `cs`. */
  function OwnK3(cs: seq<Component>, n: nat): (r: seq<nat>)
    requires n <= |cs|
    ensures forall i :: 0 <= i < |r| ==> r[i] < n && cs[r[i]].k3.Some?
    ensures forall i :: 0 <= i < n && cs[i].k3.Some? ==> i in r
  {
    if n == 0 then []
    else OwnK3(cs, n - 1) + (if cs[n - 1].k3.Some? then [n - 1] else [])
  }

  /** Every K3 component of the tree `g`, depth first: the object's own, then each child's subtree in order. */
  function K3Refs(g: GameObject): seq<CompRef>
    decreases g, |g.children| + 1
  {
    var own := OwnK3(g.components, |g.components|);
    seq(|own|, i requires 0 <= i < |own| => CompRef([], own[i])) + ChildK3Refs(g, |g.children|)
  }

  /** The K3 components of the subtrees of the first `n` children of `g`, as locations from `g`. */
  function ChildK3Refs(g: GameObject, n: nat): seq<CompRef>
    requires n <= |g.children|
    decreases g, n
  {
    if n == 0 then []
    else
      var below := K3Refs(g.children[n - 1]);
      ChildK3Refs(g, n - 1) + seq(|below|, i requires 0 <= i < |below| => CompRef([n - 1] + below[i].loc, below[i].index))
  }

  /** Going down through child `j` first. */
  lemma DownThrough(g: GameObject, j: nat, r: CompRef)
    requires j < |g.children|
    ensures IsK3At(g, CompRef([j] + r.loc, r.index)) <==> IsK3At(g.children[j], r)
    ensures IsK3At(g.children[j], r) ==>
              FieldsAt(g, CompRef([j] + r.loc, r.index)) == FieldsAt(g.children[j], r)
  {
    var l := [j] + r.loc;
    assert l[0] == j && l[1..] == r.loc;
  }

  lemma {:induction false} K3RefsSound(g: GameObject)
    ensures forall i :: 0 <= i < |K3Refs(g)| ==> IsK3At(g, K3Refs(g)[i])
    decreases g, |g.children| + 1
  {
    ChildK3RefsSound(g, |g.children|);
  }

  lemma {:induction false} ChildK3RefsSound(g: GameObject, n: nat)
    requires n <= |g.children|
    ensures forall i :: 0 <= i < |ChildK3Refs(g, n)| ==> IsK3At(g, ChildK3Refs(g, n)[i])
    decreases g, n
  {
    if n > 0 {
      ChildK3RefsSound(g, n - 1);
      var below := K3Refs(g.children[n - 1]);
      K3RefsSound(g.children[n - 1]);
      var prev := ChildK3Refs(g, n - 1);
      var all := ChildK3Refs(g, n);
      forall i | 0 <= i < |all|
        ensures IsK3At(g, all[i])
      {
        if i >= |prev| {
          DownThrough(g, n - 1, below[i - |prev|]);
        }
      }
    }
  }

  lemma {:induction false} ChildK3RefsHas(g: GameObject, n: nat, j: nat, r: CompRef)
    requires j < n <= |g.children| && r in K3Refs(g.children[j])
    ensures CompRef([j] + r.loc, r.index) in ChildK3Refs(g, n)
    decreases n
  {
    var below := K3Refs(g.children[n - 1]);
    var prev := ChildK3Refs(g, n - 1);
    if j < n - 1 {
      ChildK3RefsHas(g, n - 1, j, r);
      assert ChildK3Refs(g, n) == prev + seq(|below|, i requires 0 <= i < |below| => CompRef([n - 1] + below[i].loc, below[i].index));
    } else {
      var i :| 0 <= i < |below| && below[i] == r;
      assert ChildK3Refs(g, n)[|prev| + i] == CompRef([j] + r.loc, r.index);
    }
  }

  /** Every K3 component of the tree is listed. */
  lemma {:induction false} K3RefsComplete(g: GameObject, r: CompRef)
    requires IsK3At(g, r)
    ensures r in K3Refs(g)
    decreases r.loc
  {
    var own := OwnK3(g.components, |g.components|);
    var ownRefs := seq(|own|, i requires 0 <= i < |own| => CompRef([], own[i]));
    if r.loc == [] {
      var i :| 0 <= i < |own| && own[i] == r.index;
      assert K3Refs(g)[i] == ownRefs[i] == r;
    } else {
      var j := r.loc[0];
      var rest := CompRef(r.loc[1..], r.index);
      assert r.loc == [j] + rest.loc;
      DownThrough(g, j, rest);
      K3RefsComplete(g.children[j], rest);
      ChildK3RefsHas(g, |g.children|, j, rest);
      assert K3Refs(g) == ownRefs + ChildK3Refs(g, |g.children|);
    }
  }

  // ----- containers -----

  /** GetComponent<T>() != null for the type named `typeName`. */
  predicate HasComponent(g: GameObject, typeName: string)
  {
    exists i :: 0 <= i < |g.components| && g.components[i].typeName == typeName
  }

  predicate IsContainer(g: GameObject)
  {
    HasComponent(g, "K3DialogEx") || HasComponent(g, "K3Panel")
  }

  /** DetermineContainerType. */
  function DetermineContainerType(g: GameObject): (r: string)
    ensures r == "Unknown" <==> !IsContainer(g)
  {
    if HasComponent(g, "K3DialogEx") then "K3DialogEx"
    else if HasComponent(g, "K3Panel") then "K3Panel"
    else "Unknown"
  }

  /** The container of the object at `loc`: walking up from it, the first container below the top, else the top. */
  function ContainerOf(top: GameObject, loc: Loc): Loc
    requires ValidLoc(top, loc)
    decreases |loc|
  {
    if loc == [] then []
    else if IsContainer(NodeAt(top, loc)) then loc
    else
      AncestorLoc(top, loc, |loc| - 1);
      ContainerOf(top, loc[..|loc| - 1])
  }

  /**
   * The container is the object itself or an ancestor; below the top it is a container,
   * and no object between it and the starting object is one.
   */
  lemma {:induction false} ContainerMeaning(top: GameObject, loc: Loc)
    requires ValidLoc(top, loc)
    ensures IsPrefix(ContainerOf(top, loc), loc)
    ensures ValidLoc(top, ContainerOf(top, loc))
    ensures ContainerOf(top, loc) != [] ==> IsContainer(NodeAt(top, ContainerOf(top, loc)))
    ensures forall k :: |ContainerOf(top, loc)| < k <= |loc| ==> ValidLoc(top, loc[..k]) && !IsContainer(NodeAt(top, loc[..k]))
    decreases |loc|
  {
    if loc != [] && !IsContainer(NodeAt(top, loc)) {
      var up := loc[..|loc| - 1];
      AncestorLoc(top, loc, |loc| - 1);
      ContainerMeaning(top, up);
      var c := ContainerOf(top, up);
      assert loc[..|c|] == up[..|c|];
      forall k | |c| < k <= |loc|
        ensures ValidLoc(top, loc[..k]) && !IsContainer(NodeAt(top, loc[..k]))
      {
        if k < |loc| {
          assert loc[..k] == up[..k];
        } else {
          assert loc[..k] == loc;
        }
      }
    }
  }

  /** FindContainerGameObject: walks up the parents, stopping below the top. */
  method FindContainerGameObject(top: GameObject, loc: Loc) returns (c: Loc)
    requires ValidLoc(top, loc)
    ensures c == ContainerOf(top, loc)
  {
    var k := |loc|;
    assert loc[..k] == loc;
    while k > 0
      invariant 0 <= k <= |loc|
      invariant ValidLoc(top, loc[..k]) && ContainerOf(top, loc[..k]) == ContainerOf(top, loc)
    {
      if IsContainer(NodeAt(top, loc[..k])) {
        return loc[..k];
      }
      assert loc[..k][..k - 1] == loc[..k - 1];
      AncestorLoc(top, loc, k - 1);
      k := k - 1;
    }
    return [];
  }

  // ----- matching an ID -----

  /** The loop of FindComponentsByK3Id over `refs`: components whose ID cannot be read are skipped. */
  function MatchesIn(top: GameObject, refs: seq<CompRef>, k3Id: nat): seq<Match>
    requires forall i :: 0 <= i < |refs| ==> IsK3At(top, refs[i])
    decreases |refs|
  {
    if refs == [] then []
    else
      var prev := MatchesIn(top, refs[..|refs| - 1], k3Id);
      var r := refs[|refs| - 1];
      if FieldsAt(top, r).id == Some(k3Id) then
        var c := ContainerOf(top, r.loc);
        ContainerMeaning(top, r.loc);
        prev + [Match(|prev|, r, c, DetermineContainerType(NodeAt(top, c)))]
      else prev
  }

  /** FindComponentsByK3Id(prefabRoot, k3Id): numbered matches, each a K3 component with the ID. */
  function Matches(top: GameObject, k3Id: nat): (r: seq<Match>)
    ensures forall i :: 0 <= i < |r| ==>
              && r[i].index == i && IsK3At(top, r[i].component)
              && FieldsAt(top, r[i].component).id == Some(k3Id)
              && r[i].container == ContainerOf(top, r[i].component.loc)
  {
    K3RefsSound(top);
    MatchesInSound(top, K3Refs(top), k3Id);
    MatchesIn(top, K3Refs(top), k3Id)
  }

  /**
   * The matches are numbered 0, 1, ...; each is a K3 component with the ID, its container
   * is ContainerOf its object, and its container type is that container's.
   */
  lemma {:induction false} MatchesInSound(top: GameObject, refs: seq<CompRef>, k3Id: nat)
    requires forall i :: 0 <= i < |refs| ==> IsK3At(top, refs[i])
    ensures forall i :: 0 <= i < |MatchesIn(top, refs, k3Id)| ==>
              && MatchesIn(top, refs, k3Id)[i].index == i
              && MatchesIn(top, refs, k3Id)[i].component in refs
              && IsK3At(top, MatchesIn(top, refs, k3Id)[i].component)
              && FieldsAt(top, MatchesIn(top, refs, k3Id)[i].component).id == Some(k3Id)
              && MatchesIn(top, refs, k3Id)[i].container == ContainerOf(top, MatchesIn(top, refs, k3Id)[i].component.loc)
    decreases |refs|
  {
    if refs != [] {
      var init := refs[..|refs| - 1];
      MatchesInSound(top, init, k3Id);
      var prev := MatchesIn(top, init, k3Id);
      var ms := MatchesIn(top, refs, k3Id);
      forall i | 0 <= i < |ms|
        ensures ms[i].index == i && ms[i].component in refs
      {
        if i < |prev| {
          assert ms[i] == prev[i];
          assert prev[i].component in init;
        }
      }
    }
  }

  /** Every component listed with the ID is matched. */
  lemma {:induction false} MatchesInComplete(top: GameObject, refs: seq<CompRef>, k3Id: nat, r: CompRef)
    requires forall i :: 0 <= i < |refs| ==> IsK3At(top, refs[i])
    requires r in refs && IsK3At(top, r) && FieldsAt(top, r).id == Some(k3Id)
    ensures exists i :: 0 <= i < |MatchesIn(top, refs, k3Id)| && MatchesIn(top, refs, k3Id)[i].component == r
    decreases |refs|
  {
    var init := refs[..|refs| - 1];
    var prev := MatchesIn(top, init, k3Id);
    var ms := MatchesIn(top, refs, k3Id);
    if r == refs[|refs| - 1] {
      assert ms[|prev|].component == r;
    } else {
      assert r in init;
      MatchesInComplete(top, init, k3Id, r);
      var i :| 0 <= i < |prev| && prev[i].component == r;
      assert ms[i] == prev[i];
    }
  }

  /** A K3 component anywhere in the prefab is matched exactly when its ID reads as `k3Id`. */
  lemma MatchesExactly(top: GameObject, k3Id: nat, r: CompRef)
    requires IsK3At(top, r)
    ensures (exists i :: 0 <= i < |Matches(top, k3Id)| && Matches(top, k3Id)[i].component == r) <==>
            FieldsAt(top, r).id == Some(k3Id)
  {
    K3RefsSound(top);
    assert Matches(top, k3Id) == MatchesIn(top, K3Refs(top), k3Id);
    if FieldsAt(top, r).id == Some(k3Id) {
      K3RefsComplete(top, r);
      MatchesInComplete(top, K3Refs(top), k3Id, r);
    }
  }

  /** FindComponentsByK3Id: the matches in the order GetComponentsInChildren lists the components. */
  method FindComponentsByK3Id(top: GameObject, k3Id: nat) returns (matches: seq<Match>)
    ensures matches == Matches(top, k3Id)
  {
    var all := K3Refs(top);
    K3RefsSound(top);
    matches := [];
    var i := 0;
    while i < |all|
      invariant 0 <= i <= |all|
      invariant matches == MatchesIn(top, all[..i], k3Id)
    {
      var r := all[i];
      assert all[..i + 1][..i] == all[..i];
      var fields := FieldsAt(top, r);
      if fields.id == Some(k3Id) {
        var container := FindContainerGameObject(top, r.loc);
        ContainerMeaning(top, r.loc);
        var containerType := DetermineContainerType(NodeAt(top, container));
        matches := matches + [Match(|matches|, r, container, containerType)];
      }
      i := i + 1;
    }
    assert all[..|all|] == all;
  }

  /** The filter of the second overload: no filter keeps all; otherwise the matches whose component type is listed. */
  function FilterByType(top: GameObject, ms: seq<Match>, filters: Option<seq<string>>): (r: seq<Match>)
    requires forall i :: 0 <= i < |ms| ==> IsK3At(top, ms[i].component)
    decreases |ms|
  {
    if filters.None? || filters.value == [] || ms == [] then ms
    else
      var prev := FilterByType(top, ms[..|ms| - 1], filters);
      var m := ms[|ms| - 1];
      if TypeNameAt(top, m.component) in filters.value then prev + [m] else prev
  }

  /**
   * With a filter, a match is kept exactly when its component's type is listed, in order
   * and with its number from the unfiltered list.
   */
  lemma {:induction false} FilterByTypeMeaning(top: GameObject, ms: seq<Match>, fs: seq<string>)
    requires forall i :: 0 <= i < |ms| ==> IsK3At(top, ms[i].component)
    requires fs != []
    ensures |FilterByType(top, ms, Some(fs))| <= |ms|
    ensures forall m :: m in FilterByType(top, ms, Some(fs)) <==> m in ms && TypeNameAt(top, m.component) in fs
    decreases |ms|
  {
    if ms != [] {
      var init := ms[..|ms| - 1];
      FilterByTypeMeaning(top, init, fs);
      assert forall m :: m in ms <==> m in init || m == ms[|ms| - 1];
    }
  }

  /** FindComponentsByK3Id(prefabRoot, k3Id, componentTypeFilters). */
  method FindComponentsByK3IdFiltered(top: GameObject, k3Id: nat, filters: Option<seq<string>>) returns (matches: seq<Match>)
    ensures matches == FilterByType(top, Matches(top, k3Id), filters)
  {
    var all := FindComponentsByK3Id(top, k3Id);
    matches := FilterByType(top, all, filters);
  }

  /** FindComponentByK3IdAndIndex: the match with that number, or null out of range. */
  method FindComponentByK3IdAndIndex(top: GameObject, k3Id: nat, index: int) returns (m: Option<Match>)
    ensures m.Some? <==> 0 <= index < |Matches(top, k3Id)|
    ensures m.Some? ==> m.value == Matches(top, k3Id)[index] && m.value.index == index
  {
    var matches := FindComponentsByK3Id(top, k3Id);
    if index < 0 || index >= |matches| {
      return None;
    }
    return Some(matches[index]);
  }
}
