// Insertion of one serialized property value into a JsonData tree, following
// its token list (UnityAgentSkills/Utils/Serialization/SerializedJsonTreeBuilder.cs;
// UnitySkills/AgentCommands/Utils/SerializedObjectHelper.cs carries an
// identical copy). The tree is a value here: each step returns the updated
// node, and a child that was descended into is written back into its slot.
module JsonTree {
  import opened Wrappers
  import opened Text
  import opened JsonValues
  import opened PropertyPath

  /** The exceptions the builder can raise: a member read on a null node, and an index or substring range out of bounds. */
  datatype Fault = NullReference | ArgumentOutOfRange

  /** Where a child node sits in its parent: an object field, or an element of the array held in a field. */
  datatype Slot = InField(key: string) | InElement(key: string, index: nat)

  /** One traversal step: descend into the child at the slot, stop (the C# null return), or throw. */
  datatype Step =
    | Descend(parent: Json, slot: Slot, child: Json)
    | Halt(parent: Json)
    | Crash(parent: Json, fault: Fault)

  /** The tree after an insertion and the exception that ended it, if any. */
  datatype Outcome = Outcome(tree: Json, fault: Option<Fault>)

  predicate HasSlot(node: Json, slot: Slot)
  {
    node.JObject? && slot.key in node.fields
    && (slot.InElement? ==> node.fields[slot.key].JArray? && slot.index < |node.fields[slot.key].items|)
  }

  function At(node: Json, slot: Slot): Json
    requires HasSlot(node, slot)
  {
    match slot
    case InField(k) => node.fields[k]
    case InElement(k, i) => node.fields[k].items[i]
  }

  /** The node with its child at the slot replaced; every other field is kept. */
  function Put(node: Json, slot: Slot, child: Json): (r: Json)
    requires HasSlot(node, slot)
    ensures HasSlot(r, slot) && At(r, slot) == child
    ensures r.fields.Keys == node.fields.Keys
    ensures forall k :: k in node.fields && k != slot.key ==> r.fields[k] == node.fields[k]
    ensures slot.InElement? ==> |r.fields[slot.key].items| == |node.fields[slot.key].items|
    ensures slot.InElement? ==> forall j :: 0 <= j < |r.fields[slot.key].items| && j != slot.index ==>
              r.fields[slot.key].items[j] == node.fields[slot.key].items[j]
  {
    match slot
    case InField(k) => JObject(node.fields[k := child])
    case InElement(k, i) => JObject(node.fields[k := JArray(node.fields[k].items[i := child])])
  }

  /** The list after EnsureArrayCapacity: nulls are appended until requiredIndex is a valid index. */
  function Padded(items: seq<Json>, requiredIndex: int): (r: seq<Json>)
    ensures |r| == if requiredIndex < |items| then |items| else requiredIndex + 1
    ensures |r| > requiredIndex && r[..|items|] == items
    ensures forall k :: |items| <= k < |r| ==> r[k] == JNull
    decreases requiredIndex - |items|
  {
    if requiredIndex < |items| then items else Padded(items + [JNull], requiredIndex)
  }

  /** EnsureArrayCapacity: a non-array is left alone; an array grows by nulls in a loop. */
  method EnsureArrayCapacity(node: Json, requiredIndex: int) returns (r: Json)
    ensures r == if node.JArray? then JArray(Padded(node.items, requiredIndex)) else node
  {
    if !node.JArray? {
      return node;
    }
    var items := node.items;
    while |items| <= requiredIndex
      invariant Padded(items, requiredIndex) == Padded(node.items, requiredIndex)
      decreases requiredIndex - |items|
    {
      items := items + [JNull];
    }
    r := JArray(items);
  }

  /**
   * GetOrCreateObjectNode: a non-object parent gives null; an object field is
   * reused; a missing or non-object field is replaced by a fresh object.
   */
  function GetOrCreateObjectNode(parent: Json, f: string): (s: Step)
    ensures !parent.JObject? ==> s == Halt(parent)
    ensures s.Crash? <==> parent.JObject? && f in parent.fields && parent.fields[f] == JNull
    ensures s.Crash? ==> s.parent == parent && s.fault == NullReference
    ensures s.Descend? ==> s.slot == InField(f) && HasSlot(s.parent, s.slot) && At(s.parent, s.slot) == s.child
    ensures s.Descend? ==> s.child == if f in parent.fields && parent.fields[f].JObject? then parent.fields[f] else EmptyObject
    ensures s.Descend? && f in parent.fields && parent.fields[f].JObject? ==> s.parent == parent
    ensures s.Descend? ==> s.parent.fields.Keys == parent.fields.Keys + {f}
    ensures s.Descend? ==> forall k :: k in parent.fields && k != f ==> s.parent.fields[k] == parent.fields[k]
  {
    if !parent.JObject? then Halt(parent)
    else if f in parent.fields then
      var existing := parent.fields[f];
      if existing == JNull then Crash(parent, NullReference)
      else if existing.JObject? then Descend(parent, InField(f), existing)
      else Descend(JObject(parent.fields[f := EmptyObject]), InField(f), EmptyObject)
    else Descend(JObject(parent.fields[f := EmptyObject]), InField(f), EmptyObject)
  }

  /**
   * GetOrCreateArrayNode: a non-object parent gives null; an array field is
   * reused; a missing or non-array field is replaced by a fresh array.
   */
  function GetOrCreateArrayNode(parent: Json, f: string): (s: Step)
    ensures !parent.JObject? ==> s == Halt(parent)
    ensures s.Crash? <==> parent.JObject? && f in parent.fields && parent.fields[f] == JNull
    ensures s.Crash? ==> s.parent == parent && s.fault == NullReference
    ensures s.Descend? ==> s.slot == InField(f) && HasSlot(s.parent, s.slot) && At(s.parent, s.slot) == s.child
    ensures s.Descend? ==> s.child == if f in parent.fields && parent.fields[f].JArray? then parent.fields[f] else EmptyArray
    ensures s.Descend? && f in parent.fields && parent.fields[f].JArray? ==> s.parent == parent
    ensures s.Descend? ==> s.parent.fields.Keys == parent.fields.Keys + {f}
    ensures s.Descend? ==> forall k :: k in parent.fields && k != f ==> s.parent.fields[k] == parent.fields[k]
  {
    if !parent.JObject? then Halt(parent)
    else if f in parent.fields then
      var existing := parent.fields[f];
      if existing == JNull then Crash(parent, NullReference)
      else if existing.JArray? then Descend(parent, InField(f), existing)
      else Descend(JObject(parent.fields[f := EmptyArray]), InField(f), EmptyArray)
    else Descend(JObject(parent.fields[f := EmptyArray]), InField(f), EmptyArray)
  }

  /** The items of the array GetOrCreateArrayNode returned, after EnsureArrayCapacity. */
  function PaddedItems(s: Step, requiredIndex: int): seq<Json>
    requires s.Descend? && s.child.JArray?
  {
    Padded(s.child.items, requiredIndex)
  }

  /**
   * TraversePath: a Field descends into an object; an ArrayIndex descends into
   * the element, turning a null element into an object or array when a next
   * token is given; an ArraySize stops the walk.
   */
  function TraversePath(parent: Json, token: PathToken, next: Option<PathToken>): (s: Step)
    ensures token.kind == ArraySize ==> s == Halt(parent)
    ensures !parent.JObject? ==> s == Halt(parent)
    ensures s.Descend? ==> HasSlot(s.parent, s.slot) && At(s.parent, s.slot) == s.child
    ensures s.Descend? ==> s.slot.key == token.fieldName && s.parent.fields.Keys == parent.fields.Keys + {token.fieldName}
    ensures s.Descend? ==> forall k :: k in parent.fields && k != token.fieldName ==> s.parent.fields[k] == parent.fields[k]
    ensures token.kind == Field ==> s == GetOrCreateObjectNode(parent, token.fieldName)
  {
    match token.kind
    case Field => GetOrCreateObjectNode(parent, token.fieldName)
    case ArraySize => Halt(parent)
    case ArrayIndex =>
      var f := token.fieldName;
      var i := token.arrayIndex;
      var a := GetOrCreateArrayNode(parent, f);
      if !a.Descend? then a
      else
        var items := PaddedItems(a, i);
        var p := Put(a.parent, InField(f), JArray(items));
        if i < 0 then Crash(p, ArgumentOutOfRange)
        else if items[i] == JNull && next.Some? && next.value.kind == Field then
          Descend(Put(p, InField(f), JArray(items[i := EmptyObject])), InElement(f, i), EmptyObject)
        else if items[i] == JNull && next.Some? && next.value.kind == ArrayIndex then
          Descend(Put(p, InField(f), JArray(items[i := EmptyArray])), InElement(f, i), EmptyArray)
        else if items[i] == JNull then Halt(p)
        else Descend(p, InElement(f, i), items[i])
  }

  /** The array length an ArraySize leaf asks for: an int as is, a string through int.TryParse, else 0. */
  function RequestedSize(value: Json): (n: int)
    ensures value.JInt? ==> n == value.i
    ensures value.JString? ==> n == TryParseInt(value.s).GetOr(0)
    ensures !value.JInt? && !value.JString? ==> n == 0
  {
    match value
    case JInt(i) => i
    case JString(s) => TryParseInt(s).GetOr(0)
    case _ => 0
  }

  /** SetFinalValue: writes the value for the last token into the node reached. */
  function SetFinalValue(parent: Json, token: PathToken, value: Json): (r: Outcome)
    ensures !parent.JObject? ==> r == Outcome(parent, None)
    ensures parent.JObject? ==> r.tree.JObject? && parent.fields.Keys <= r.tree.fields.Keys
    ensures parent.JObject? ==> forall k :: k in parent.fields && k != token.fieldName ==> r.tree.fields[k] == parent.fields[k]
    ensures token.kind == Field && parent.JObject? ==> r == Outcome(JObject(parent.fields[token.fieldName := value]), None)
  {
    var f := token.fieldName;
    match token.kind
    case Field =>
      if parent.JObject? then Outcome(JObject(parent.fields[f := value]), None) else Outcome(parent, None)
    case ArrayIndex =>
      var a := GetOrCreateArrayNode(parent, f);
      if a.Halt? then Outcome(a.parent, None)
      else if a.Crash? then Outcome(a.parent, Some(a.fault))
      else
        var items := PaddedItems(a, token.arrayIndex);
        if token.arrayIndex < 0 then Outcome(Put(a.parent, InField(f), JArray(items)), Some(ArgumentOutOfRange))
        else Outcome(Put(a.parent, InField(f), JArray(items[token.arrayIndex := value])), None)
    case ArraySize =>
      if !parent.JObject? then Outcome(parent, None)
      else if value == JNull then Outcome(parent, Some(NullReference))
      else
        var a := GetOrCreateArrayNode(parent, f);
        if a.Halt? then Outcome(a.parent, None)
        else if a.Crash? then Outcome(a.parent, Some(a.fault))
        else Outcome(Put(a.parent, InField(f), JArray(PaddedItems(a, RequestedSize(value) - 1))), None)
  }

  /**
   * The loop of InsertPropertyValue over the remaining tokens: every token but
   * the last is traversed, the last one is set. The lookahead is the distance
   * to the token that decides what a null array element becomes.
   */
  function Walk(node: Json, path: seq<PathToken>, lookahead: nat, value: Json): (r: Outcome)
    requires |path| >= 1
    ensures !node.JObject? ==> r == Outcome(node, None)
    ensures node.JObject? ==> r.tree.JObject? && node.fields.Keys <= r.tree.fields.Keys
    ensures node.JObject? ==> forall k :: k in node.fields && k != path[0].fieldName ==> r.tree.fields[k] == node.fields[k]
    decreases |path|
  {
    if |path| == 1 then SetFinalValue(node, path[0], value)
    else
      var next := if lookahead < |path| then Some(path[lookahead]) else None;
      match TraversePath(node, path[0], next)
      case Halt(p) => Outcome(p, None)
      case Crash(p, e) => Outcome(p, Some(e))
      case Descend(p, slot, child) =>
        var sub := Walk(child, path[1..], lookahead, value);
        Outcome(Put(p, slot, sub.tree), sub.fault)
  }

  /** The tree InsertPropertyValue leaves, for a given lookahead: a null root or an empty token list changes nothing. */
  function Inserted(root: Json, tokens: seq<PathToken>, lookahead: nat, value: Json): (r: Outcome)
    ensures root == JNull || tokens == [] ==> r == Outcome(root, None)
    ensures root.JObject? ==> r.tree.JObject? && root.fields.Keys <= r.tree.fields.Keys
    ensures root.JObject? && tokens != [] ==>
              forall k :: k in root.fields && k != tokens[0].fieldName ==> r.tree.fields[k] == root.fields[k]
  {
    if root == JNull || tokens == [] then Outcome(root, None)
    else Walk(root, tokens, lookahead, value)
  }

  /** A parent node on the way down and the slot its child is written back to. */
  datatype Frame = Frame(parent: Json, slot: Slot)

  /** Writes an outcome back through the frames, innermost (last) first. */
  function Unwind(frames: seq<Frame>, o: Outcome): (r: Outcome)
    ensures r.fault == o.fault
    ensures frames == [] ==> r == o
    decreases |frames|
  {
    if frames == [] then o
    else
      var f := frames[|frames| - 1];
      var tree := if HasSlot(f.parent, f.slot) then Put(f.parent, f.slot, o.tree) else f.parent;
      Unwind(frames[..|frames| - 1], Outcome(tree, o.fault))
  }

  /** InsertPropertyValue: a null root or an empty path changes nothing, one token is the leaf alone. */
  method InsertPropertyValue(root: Json, tokens: seq<PathToken>, lookahead: nat, value: Json) returns (r: Outcome)
    ensures r == Inserted(root, tokens, lookahead, value)
  {
    if root == JNull || tokens == [] {
      return Outcome(root, None);
    }
    if |tokens| == 1 {
      return SetFinalValue(root, tokens[0], value);
    }
    r := WalkDown(root, tokens, lookahead, value);
  }

  /**
   * The loop of InsertPropertyValue over all tokens but the last, then the leaf. The frames
   * stand for the references the C# loop keeps into the root.
   */
  method WalkDown(root: Json, tokens: seq<PathToken>, lookahead: nat, value: Json) returns (r: Outcome)
    requires |tokens| >= 2
    ensures r == Walk(root, tokens, lookahead, value)
  {
    var current := root;
    var frames: seq<Frame> := [];
    var i := 0;
    assert tokens[0..] == tokens;
    while i < |tokens| - 1
      invariant 0 <= i <= |tokens| - 1
      invariant Walk(root, tokens, lookahead, value) == Unwind(frames, Walk(current, tokens[i..], lookahead, value))
    {
      var stop;
      stop, frames, current := Advance(frames, current, tokens, i, lookahead, value);
      if stop.Some? {
        return stop.value;
      }
      i := i + 1;
    }
    WalkLast(current, tokens, lookahead, value);
    r := Unwind(frames, SetFinalValue(current, tokens[|tokens| - 1], value));
  }

  /**
   * One pass of the loop body: TraversePath for token i, looking ahead to its container
   * token. A halt or a crash ends the insertion; a descent moves one level down.
   */
  method Advance(frames: seq<Frame>, current: Json, tokens: seq<PathToken>, i: nat, lookahead: nat, value: Json)
    returns (stop: Option<Outcome>, frames': seq<Frame>, current': Json)
    requires i < |tokens| - 1
    ensures stop.Some? ==> stop.value == Unwind(frames, Walk(current, tokens[i..], lookahead, value))
    ensures stop.None? ==>
              Unwind(frames, Walk(current, tokens[i..], lookahead, value))
                == Unwind(frames', Walk(current', tokens[i + 1..], lookahead, value))
  {
    var next: Option<PathToken> := None;
    if i + lookahead < |tokens| {
      next := Some(tokens[i + lookahead]);
    }
    var s := TraversePath(current, tokens[i], next);
    LoopStep(frames, current, tokens, i, lookahead, value);
    if !s.Descend? {
      return Some(Unwind(frames, TraverseThen(s, tokens[i + 1..], lookahead, value))), frames, current;
    }
    return None, frames + [Frame(s.parent, s.slot)], s.child;
  }

  /** One iteration of the loop: the walk from token i is the traversal of token i, then the walk from i + 1. */
  lemma WalkStep(current: Json, tokens: seq<PathToken>, i: nat, lookahead: nat, value: Json)
    requires i < |tokens| - 1
    ensures var next := if i + lookahead < |tokens| then Some(tokens[i + lookahead]) else None;
            Walk(current, tokens[i..], lookahead, value)
            == TraverseThen(TraversePath(current, tokens[i], next), tokens[i + 1..], lookahead, value)
  {
    var path := tokens[i..];
    assert path[0] == tokens[i] && path[1..] == tokens[i + 1..];
    assert lookahead < |path| ==> path[lookahead] == tokens[i + lookahead];
  }

  /**
   * One iteration of the loop, unwound through the frames: the traversal of token i, and
   * when it descends, the walk from i + 1 under one more frame.
   */
  lemma LoopStep(frames: seq<Frame>, current: Json, tokens: seq<PathToken>, i: nat, lookahead: nat, value: Json)
    requires i < |tokens| - 1
    ensures var next := if i + lookahead < |tokens| then Some(tokens[i + lookahead]) else None;
            var s := TraversePath(current, tokens[i], next);
            && Unwind(frames, Walk(current, tokens[i..], lookahead, value))
                 == Unwind(frames, TraverseThen(s, tokens[i + 1..], lookahead, value))
            && (s.Descend? ==>
                  Unwind(frames, Walk(current, tokens[i..], lookahead, value))
                    == Unwind(frames + [Frame(s.parent, s.slot)], Walk(s.child, tokens[i + 1..], lookahead, value)))
  {
    var next := if i + lookahead < |tokens| then Some(tokens[i + lookahead]) else None;
    var s := TraversePath(current, tokens[i], next);
    WalkStep(current, tokens, i, lookahead, value);
    if s.Descend? {
      DescendStep(frames, s, tokens[i + 1..], lookahead, value);
    }
  }

  /** After the loop: the walk from the last token sets it. */
  lemma WalkLast(current: Json, tokens: seq<PathToken>, lookahead: nat, value: Json)
    requires |tokens| >= 1
    ensures Walk(current, tokens[|tokens| - 1..], lookahead, value) == SetFinalValue(current, tokens[|tokens| - 1], value)
  {
    assert tokens[|tokens| - 1..] == [tokens[|tokens| - 1]];
  }

  /** What the rest of the walk makes of one traversal step. */
  function TraverseThen(s: Step, rest: seq<PathToken>, lookahead: nat, value: Json): Outcome
    requires |rest| >= 1
  {
    match s
    case Halt(p) => Outcome(p, None)
    case Crash(p, e) => Outcome(p, Some(e))
    case Descend(p, slot, child) =>
      var sub := Walk(child, rest, lookahead, value);
      Outcome(if HasSlot(p, slot) then Put(p, slot, sub.tree) else p, sub.fault)
  }

  /** Descending pushes a frame: unwinding the rest of the walk through it is the traversal step's outcome. */
  lemma DescendStep(frames: seq<Frame>, s: Step, rest: seq<PathToken>, lookahead: nat, value: Json)
    requires s.Descend? && HasSlot(s.parent, s.slot) && |rest| >= 1
    ensures Unwind(frames, TraverseThen(s, rest, lookahead, value))
         == Unwind(frames + [Frame(s.parent, s.slot)], Walk(s.child, rest, lookahead, value))
  {
    UnwindSnoc(frames, Frame(s.parent, s.slot), Walk(s.child, rest, lookahead, value));
  }

  lemma UnwindSnoc(frames: seq<Frame>, f: Frame, o: Outcome)
    requires HasSlot(f.parent, f.slot)
    ensures Unwind(frames + [f], o) == Unwind(frames, Outcome(Put(f.parent, f.slot, o.tree), o.fault))
  {
    assert (frames + [f])[..|frames|] == frames;
  }

  /** InsertPropertyValue as written: the node type for a null element is chosen from tokens[i + 2]. */
  function InsertAsWritten(root: Json, tokens: seq<PathToken>, value: Json): Outcome
  {
    Inserted(root, tokens, 2, value)
  }

  /** InsertPropertyValue as intended: the node type is chosen from the next token, tokens[i + 1]. */
  function InsertCorrected(root: Json, tokens: seq<PathToken>, value: Json): Outcome
  {
    Inserted(root, tokens, 1, value)
  }

  /** The items already held by field f when it is an array, else none. */
  function ExistingItems(parent: Json, f: string): seq<Json>
  {
    if HasKey(parent, f) && parent.fields[f].JArray? then parent.fields[f].items else []
  }

  /** An ArrayIndex leaf pads the array with nulls to index + 1 and sets that element. */
  lemma ArrayIndexLeaf(parent: Json, f: string, i: int, value: Json)
    requires parent.JObject? && !(f in parent.fields && parent.fields[f] == JNull) && i >= 0
    ensures var r := SetFinalValue(parent, CreateArrayIndex(f, i), value);
      var before := ExistingItems(parent, f);
      && r.fault == None && f in r.tree.fields && r.tree.fields[f].JArray?
      && |r.tree.fields[f].items| == (if i < |before| then |before| else i + 1)
      && r.tree.fields[f].items[i] == value
      && (forall j :: 0 <= j < |before| && j != i ==> r.tree.fields[f].items[j] == before[j])
      && (forall j :: |before| <= j < |r.tree.fields[f].items| && j != i ==> r.tree.fields[f].items[j] == JNull)
  {
    var a := GetOrCreateArrayNode(parent, f);
    assert a.child.items == ExistingItems(parent, f);
  }

  /** A negative index on an ArrayIndex leaf throws after the array was created. */
  lemma NegativeIndexLeaf(parent: Json, f: string, i: int, value: Json)
    requires parent.JObject? && !(f in parent.fields && parent.fields[f] == JNull) && i < 0
    ensures var r := SetFinalValue(parent, CreateArrayIndex(f, i), value);
      r.fault == Some(ArgumentOutOfRange) && f in r.tree.fields && r.tree.fields[f] == JArray(ExistingItems(parent, f))
  {
    var a := GetOrCreateArrayNode(parent, f);
    assert a.child.items == ExistingItems(parent, f);
  }

  /** An ArraySize leaf grows the array to at least the requested size and never shrinks it. */
  lemma ArraySizeLeaf(parent: Json, f: string, value: Json)
    requires parent.JObject? && !(f in parent.fields && parent.fields[f] == JNull) && value != JNull
    ensures var r := SetFinalValue(parent, CreateArraySize(f), value);
      var before := ExistingItems(parent, f);
      var n := RequestedSize(value);
      && r.fault == None && f in r.tree.fields && r.tree.fields[f].JArray?
      && |r.tree.fields[f].items| == (if n <= |before| then |before| else n)
      && r.tree.fields[f].items[..|before|] == before
      && (forall j :: |before| <= j < |r.tree.fields[f].items| ==> r.tree.fields[f].items[j] == JNull)
  {
    var a := GetOrCreateArrayNode(parent, f);
    assert a.child.items == ExistingItems(parent, f);
  }

  /** A null value for an ArraySize leaf is read for its type and throws. */
  lemma NullSizeThrows(parent: Json, f: string)
    requires parent.JObject?
    ensures SetFinalValue(parent, CreateArraySize(f), JNull) == Outcome(parent, Some(NullReference))
  {
  }

  /** An ArraySize token before the last one stops the insertion where it stands. */
  lemma ArraySizeMidPath(node: Json, path: seq<PathToken>, lookahead: nat, value: Json)
    requires |path| >= 2 && path[0].kind == ArraySize
    ensures Walk(node, path, lookahead, value) == Outcome(node, None)
  {
  }

  /** Reading a value back along a token path. */
  function Lookup(node: Json, path: seq<PathToken>): (r: Option<Json>)
    ensures path == [] ==> r == Some(node)
    decreases |path|
  {
    if path == [] then Some(node)
    else if !HasKey(node, path[0].fieldName) then None
    else
      var c := node.fields[path[0].fieldName];
      match path[0].kind
      case Field => Lookup(c, path[1..])
      case ArrayIndex =>
        if c.JArray? && 0 <= path[0].arrayIndex < |c.items| then Lookup(c.items[path[0].arrayIndex], path[1..]) else None
      case ArraySize => None
  }

  /** The element an ArrayIndex token finds in the existing tree, or null. */
  function ExistingElement(node: Json, f: string, i: int): Json
  {
    if 0 <= i < |ExistingItems(node, f)| then ExistingItems(node, f)[i] else JNull
  }

  /**
   * A path the builder can follow from this node: no ArraySize token, no
   * negative index, no null field on the way, an ArrayIndex is followed by a
   * Field, and every existing node it passes through is an object.
   */
  predicate Clear(node: Json, path: seq<PathToken>)
    decreases |path|
  {
    |path| >= 1 && node.JObject?
    && !(path[0].fieldName in node.fields && node.fields[path[0].fieldName] == JNull)
    && match path[0].kind
       case ArraySize => false
       case Field =>
         |path| == 1
         || Clear(if HasKey(node, path[0].fieldName) && node.fields[path[0].fieldName].JObject?
                  then node.fields[path[0].fieldName] else EmptyObject, path[1..])
       case ArrayIndex =>
         var e := ExistingElement(node, path[0].fieldName, path[0].arrayIndex);
         path[0].arrayIndex >= 0
         && (|path| == 1
             || (path[1].kind == Field && (e == JNull || e.JObject?)
                 && Clear(if e == JNull then EmptyObject else e, path[1..])))
  }

  /** Looking up through a written-back slot reads the child that was written. */
  lemma LookupThroughSlot(p: Json, slot: Slot, child: Json, path: seq<PathToken>)
    requires |path| >= 1 && HasSlot(p, slot) && slot.key == path[0].fieldName
    requires path[0].kind == Field ==> slot.InField?
    requires path[0].kind == ArrayIndex ==> slot.InElement? && slot.index == path[0].arrayIndex
    requires path[0].kind != ArraySize
    ensures Lookup(Put(p, slot, child), path) == Lookup(child, path[1..])
  {
  }

  /** With the next token as lookahead, a value inserted along a clear path is found there. */
  lemma {:induction false} WalkThenLookup(node: Json, path: seq<PathToken>, value: Json)
    requires Clear(node, path)
    ensures Walk(node, path, 1, value).fault == None
    ensures Lookup(Walk(node, path, 1, value).tree, path) == Some(value)
    decreases |path|
  {
    var t := path[0];
    if |path| == 1 {
      if t.kind == ArrayIndex {
        ArrayIndexLeaf(node, t.fieldName, t.arrayIndex, value);
        assert t == CreateArrayIndex(t.fieldName, t.arrayIndex);
      }
    } else {
      var s := TraversePath(node, t, Some(path[1]));
      if t.kind == ArrayIndex {
        var a := GetOrCreateArrayNode(node, t.fieldName);
        assert a.child.items == ExistingItems(node, t.fieldName);
      }
      assert s.Descend?;
      WalkThenLookup(s.child, path[1..], value);
      var sub := Walk(s.child, path[1..], 1, value);
      LookupThroughSlot(s.parent, s.slot, sub.tree, path);
    }
  }

  /** InsertPropertyValue (with the next token as lookahead) makes the value readable along a clear path. */
  lemma InsertThenLookup(root: Json, tokens: seq<PathToken>, value: Json)
    requires Clear(root, tokens)
    ensures InsertCorrected(root, tokens, value).fault == None
    ensures Lookup(InsertCorrected(root, tokens, value).tree, tokens) == Some(value)
  {
    WalkThenLookup(root, tokens, value);
  }

  /** The token `d` places after position i, if the path has one. */
  function Ahead(path: seq<PathToken>, i: nat, d: nat): Option<PathToken>
  {
    if i + d < |path| then Some(path[i + d]) else None
  }

  /** What a null array element becomes under a given lookahead token: an object, an array, or nothing. */
  function ContainerFor(next: Option<PathToken>): (c: Option<TokenKind>)
    ensures c.Some? ==> next.Some? && c.value == next.value.kind && c.value != ArraySize
  {
    if next.Some? && next.value.kind != ArraySize then Some(next.value.kind) else None
  }

  /** At every step, the tokens one and two ahead call for the same container. */
  predicate SameContainers(path: seq<PathToken>)
  {
    forall i :: 0 <= i < |path| ==> ContainerFor(Ahead(path, i, 1)) == ContainerFor(Ahead(path, i, 2))
  }

  /** TraversePath reads the lookahead token only for the container it calls for. */
  lemma TraverseByContainer(parent: Json, token: PathToken, n1: Option<PathToken>, n2: Option<PathToken>)
    requires ContainerFor(n1) == ContainerFor(n2)
    ensures TraversePath(parent, token, n1) == TraversePath(parent, token, n2)
  {
    assert (n1.Some? && n1.value.kind == Field) == (n2.Some? && n2.value.kind == Field);
    assert (n1.Some? && n1.value.kind == ArrayIndex) == (n2.Some? && n2.value.kind == ArrayIndex);
  }

  /** The walks with lookahead 1 and 2 agree on every path whose tokens one and two ahead agree on containers. */
  lemma {:induction false} WalkLookaheadsAgree(node: Json, path: seq<PathToken>, value: Json)
    requires |path| >= 1 && SameContainers(path)
    ensures Walk(node, path, 2, value) == Walk(node, path, 1, value)
    decreases |path|
  {
    if |path| > 1 {
      assert ContainerFor(Ahead(path, 0, 1)) == ContainerFor(Ahead(path, 0, 2));
      TraverseByContainer(node, path[0], Ahead(path, 0, 2), Ahead(path, 0, 1));
      var rest := path[1..];
      forall i | 0 <= i < |rest|
        ensures ContainerFor(Ahead(rest, i, 1)) == ContainerFor(Ahead(rest, i, 2))
      {
        assert Ahead(rest, i, 1) == Ahead(path, i + 1, 1);
        assert Ahead(rest, i, 2) == Ahead(path, i + 1, 2);
      }
      match TraversePath(node, path[0], Ahead(path, 0, 1))
      case Halt(_) =>
      case Crash(_, _) =>
      case Descend(_, _, child) =>
        WalkLookaheadsAgree(child, rest, value);
    }
  }

  /**
   * The defect of the as-written lookahead is confined to paths where the tokens one
   * and two ahead call for different containers: elsewhere both insertions agree.
   */
  lemma AsWrittenAgreesWithCorrected(root: Json, tokens: seq<PathToken>, value: Json)
    requires SameContainers(tokens)
    ensures InsertAsWritten(root, tokens, value) == InsertCorrected(root, tokens, value)
  {
    if root != JNull && tokens != [] {
      WalkLookaheadsAgree(root, tokens, value);
    }
  }

  /** On the failing path of LookaheadLosesValue, the two lookaheads call for different containers. */
  lemma LosingPathDiffers()
    ensures !SameContainers([CreateArrayIndex("a", 0), CreateField("b")])
  {
    var path := [CreateArrayIndex("a", 0), CreateField("b")];
    assert ContainerFor(Ahead(path, 0, 1)) == Some(Field);
    assert ContainerFor(Ahead(path, 0, 2)) == None;
  }

  /**
   * As written, "a.Array.data[0].b" inserted into an empty object loses the
   * value: the lookahead two tokens on is past the end, so the null element
   * is not turned into an object and the walk stops at it.
   */
  lemma LookaheadLosesValue(value: Json)
    ensures var tokens := [CreateArrayIndex("a", 0), CreateField("b")];
      && Clear(EmptyObject, tokens)
      && InsertAsWritten(EmptyObject, tokens, value) == Outcome(JObject(map["a" := JArray([JNull])]), None)
      && Lookup(InsertAsWritten(EmptyObject, tokens, value).tree, tokens) == None
      && Lookup(InsertCorrected(EmptyObject, tokens, value).tree, tokens) == Some(value)
  {
    var tokens := [CreateArrayIndex("a", 0), CreateField("b")];
    AsWrittenStopsAtNull(value);
    assert Lookup(JObject(map["a" := JArray([JNull])]), tokens) == None;
    InsertThenLookup(EmptyObject, tokens, value);
  }

  /** The as-written walk pads "a" with one null element and stops there. */
  lemma AsWrittenStopsAtNull(value: Json)
    ensures InsertAsWritten(EmptyObject, [CreateArrayIndex("a", 0), CreateField("b")], value)
              == Outcome(JObject(map["a" := JArray([JNull])]), None)
  {
    assert Padded([], 0) == [JNull];
  }
}
