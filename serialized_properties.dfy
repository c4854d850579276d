// Collecting the serialized properties of an object into one JsonData tree
// (UnitySkills/AgentCommands/Utils/SerializedObjectHelper.cs, and the base
// field name used to filter private fields, also in
// UnityAgentSkills/Utils/Serialization/SerializedFieldFilter.cs).
module SerializedProperties {
  import opened Wrappers
  import opened Text
  import opened Seqs
  import opened JsonValues
  import opened PropertyPath
  import opened JsonTree

  /**
   * ExtractBaseFieldName: the text before the first '.', or before the first
   * '[' when there is no dot past index 0; a separator at index 0 is not split.
   */
  function ExtractBaseFieldName(propertyPath: string): (r: string)
    ensures r <= propertyPath
    ensures r != propertyPath ==> |r| > 0 && (propertyPath[|r|] == '.' || propertyPath[|r|] == '[')
    ensures IndexOf(propertyPath, '.') > 0 ==> '.' !in r && r != propertyPath
    ensures IndexOf(propertyPath, '.') <= 0 && IndexOf(propertyPath, '[') > 0 ==> '[' !in r && r != propertyPath
    ensures IndexOf(propertyPath, '.') <= 0 && IndexOf(propertyPath, '[') <= 0 ==> r == propertyPath
  {
    if propertyPath == "" then propertyPath
    else
      var dot := IndexOf(propertyPath, '.');
      if dot > 0 then propertyPath[..dot]
      else
        var bracket := IndexOf(propertyPath, '[');
        if bracket > 0 then propertyPath[..bracket] else propertyPath
  }

  /** "a.b.c" gives "a" and "a[0]" gives "a"; ".a" and "[0]" are kept whole. */
  lemma BaseFieldExamples()
    ensures ExtractBaseFieldName("a.b.c") == "a"
    ensures ExtractBaseFieldName("a[0]") == "a"
    ensures ExtractBaseFieldName(".a") == ".a"
    ensures ExtractBaseFieldName("[0]") == "[0]"
  {
    assert IndexOf("a.b.c", '.') == 1;
    assert IndexOf("a[0]", '.') == -1 && IndexOf("a[0]", '[') == 1;
    assert IndexOf(".a", '.') == 0 && IndexOf(".a", '[') == -1;
    assert IndexOf("[0]", '.') == -1 && IndexOf("[0]", '[') == 0;
  }

  /** One SerializedProperty as the iterator yields it: its path and its converted value. */
  datatype Property = Property(path: string, value: Json)

  /** A property is written unless it is m_Script, or it belongs to a private field that is filtered out. */
  predicate Kept(p: Property, includePrivate: bool, privateFields: set<string>)
  {
    p.path != "m_Script" && (includePrivate || ExtractBaseFieldName(p.path) !in privateFields)
  }

  /** The skip test of the collecting loop as a predicate value. */
  function Keeper(includePrivate: bool, privateFields: set<string>): Property -> bool
  {
    (p: Property) => Kept(p, includePrivate, privateFields)
  }

  /** The top-level field a property's path writes through: the name of its first token. */
  function FirstField(p: Property): Option<string>
  {
    match PropertyPath.ParseSpec(p.path)
    case SubstringOutOfRange => None
    case Tokens(ts) => if ts == [] then None else Some(ts[0].fieldName)
  }

  /** Tokenises one property path and inserts its value with the source's i+2 lookahead; a bad substring in the path throws. */
  function InsertProperty(tree: Json, p: Property): (r: Outcome)
    ensures PropertyPath.ParseSpec(p.path).SubstringOutOfRange? ==> r == Outcome(tree, Some(ArgumentOutOfRange))
    ensures tree.JObject? ==> r.tree.JObject? && tree.fields.Keys <= r.tree.fields.Keys
    ensures tree.JObject? ==> forall k :: k in tree.fields && FirstField(p) != Some(k) ==> r.tree.fields[k] == tree.fields[k]
  {
    match PropertyPath.ParseSpec(p.path)
    case SubstringOutOfRange => Outcome(tree, Some(ArgumentOutOfRange))
    case Tokens(ts) => InsertAsWritten(tree, ts, p.value)
  }

  /** Inserts the properties in order; the first exception ends the sequence. */
  function InsertAll(tree: Json, props: seq<Property>): (r: Outcome)
    ensures props == [] ==> r == Outcome(tree, None)
    ensures tree.JObject? ==> r.tree.JObject? && tree.fields.Keys <= r.tree.fields.Keys
    ensures tree.JObject? ==>
              forall k :: k in tree.fields && (forall j :: 0 <= j < |props| ==> FirstField(props[j]) != Some(k)) ==>
                r.tree.fields[k] == tree.fields[k]
    decreases |props|
  {
    if props == [] then Outcome(tree, None)
    else
      var o := InsertAll(tree, props[..|props| - 1]);
      if o.fault.Some? then o else InsertProperty(o.tree, props[|props| - 1])
  }

  lemma InsertAllSnoc(tree: Json, props: seq<Property>, p: Property)
    ensures InsertAll(tree, props + [p])
         == var o := InsertAll(tree, props); if o.fault.Some? then o else InsertProperty(o.tree, p)
  {
    assert (props + [p])[..|props|] == props;
  }

  /** Once an insertion has thrown, later properties change nothing. */
  lemma {:induction false} FaultStops(tree: Json, props: seq<Property>, more: seq<Property>)
    requires InsertAll(tree, props).fault.Some?
    ensures InsertAll(tree, props + more) == InsertAll(tree, props)
    decreases |more|
  {
    if more != [] {
      var init := more[..|more| - 1];
      FaultStops(tree, props, init);
      assert props + more == (props + init) + [more[|more| - 1]];
      InsertAllSnoc(tree, props + init, more[|more| - 1]);
    } else {
      assert props + more == props;
    }
  }

  /**
   * GetSerializedProperties over the properties the iterator yields: m_Script
   * and, unless includePrivate, the private fields are skipped; every other
   * property is inserted into a fresh object.
   */
  method GetSerializedProperties(props: seq<Property>, includePrivate: bool, privateFields: set<string>)
    returns (r: Outcome)
    ensures r == InsertAll(EmptyObject, Filter(props, Keeper(includePrivate, privateFields)))
  {
    ghost var keep := Keeper(includePrivate, privateFields);
    r := Outcome(EmptyObject, None);
    var i := 0;
    while i < |props|
      invariant 0 <= i <= |props|
      invariant r.fault.None? && r == InsertAll(EmptyObject, Filter(props[..i], keep))
    {
      var p := props[i];
      FilterStep(props, i, keep);
      if p.path == "m_Script" {
        i := i + 1;
        continue;
      }
      if !includePrivate && ExtractBaseFieldName(p.path) in privateFields {
        i := i + 1;
        continue;
      }
      InsertAllSnoc(EmptyObject, Filter(props[..i], keep), p);
      var o := InsertProperty(r.tree, p);
      if o.fault.Some? {
        FaultEndsAll(props, i + 1, keep);
        return o;
      }
      r := o;
      i := i + 1;
    }
    assert props[..i] == props;
  }

  lemma FilterStep(props: seq<Property>, i: nat, keep: Property -> bool)
    requires i < |props|
    ensures !keep(props[i]) ==> Filter(props[..i + 1], keep) == Filter(props[..i], keep)
    ensures keep(props[i]) ==> Filter(props[..i + 1], keep) == Filter(props[..i], keep) + [props[i]]
  {
    assert props[..i + 1] == props[..i] + [props[i]];
    FilterSnoc(props[..i], props[i], keep);
    assert Filter(props[..i], keep) + [] == Filter(props[..i], keep);
  }

  /** A fault after a prefix of the kept properties is the fault of the whole sequence. */
  lemma FaultEndsAll(props: seq<Property>, i: nat, keep: Property -> bool)
    requires i <= |props| && InsertAll(EmptyObject, Filter(props[..i], keep)).fault.Some?
    ensures InsertAll(EmptyObject, Filter(props, keep)) == InsertAll(EmptyObject, Filter(props[..i], keep))
  {
    FilterPrefix(props, i, keep);
    PrefixFault(Filter(props[..i], keep), Filter(props, keep));
  }

  lemma PrefixFault(done: seq<Property>, all: seq<Property>)
    requires done <= all && InsertAll(EmptyObject, done).fault.Some?
    ensures InsertAll(EmptyObject, all) == InsertAll(EmptyObject, done)
  {
    assert all == done + all[|done|..];
    FaultStops(EmptyObject, done, all[|done|..]);
  }

  /** Filtering distributes over concatenation. */
  lemma {:induction false} FilterConcat<T>(a: seq<T>, b: seq<T>, p: T -> bool)
    ensures Filter(a + b, p) == Filter(a, p) + Filter(b, p)
    decreases |b|
  {
    if b == [] {
      assert a + b == a;
    } else {
      var init := b[..|b| - 1];
      FilterConcat(a, init, p);
      assert a + b == (a + init) + [b[|b| - 1]];
      FilterSnoc(a + init, b[|b| - 1], p);
      FilterSnoc(init, b[|b| - 1], p);
      assert b == init + [b[|b| - 1]];
    }
  }

  /** An m_Script property anywhere in the sequence has no effect on the collected tree. */
  lemma ScriptIgnored(props: seq<Property>, i: nat, includePrivate: bool, privateFields: set<string>)
    requires i < |props| && props[i].path == "m_Script"
    ensures Filter(props, Keeper(includePrivate, privateFields))
         == Filter(props[..i] + props[i + 1..], Keeper(includePrivate, privateFields))
  {
    var keep := Keeper(includePrivate, privateFields);
    var a, x, b := props[..i], props[i], props[i + 1..];
    assert !keep(x);
    assert props == (a + [x]) + b;
    FilterSnoc(a, x, keep);
    assert Filter(a + [x], keep) == Filter(a, keep) by {
      assert Filter(a, keep) + [] == Filter(a, keep);
    }
    FilterConcat(a + [x], b, keep);
    FilterConcat(a, b, keep);
  }
}
