// K3ComponentPropertyModifier (UnityAgentSkills/Plugins/K3Prefab/Utils/K3ComponentPropertyModifier.cs):
// sets properties of a K3 UI component under an optimistic lock. For each requested
// modification it reads the property, compares it with the value the caller expects,
// and only then writes the new value; every modification gets a result, in order.
//
// The .NET conversions the setters call (Convert.ToSingle, ToBoolean, ToUInt32 and the
// ToString of a value) are inputs (`conv`).
module K3Modifier {
  import opened Wrappers
  import opened Scene

  /** A boxed C# value: null, or a string, int, long, double, float, uint or bool. */
  datatype Obj =
    | ONull
    | OString(s: string)
    | OInt(i: int)
    | OLong(l: int)
    | ODouble(d: real)
    | OSingle(f: real)
    | OUInt(u: nat)
    | OBool(b: bool)

  /**
   * The .NET conversions the modifier relies on: Convert.ToSingle, ToBoolean and ToUInt32
   * (None when they throw), ToString of a value that is not a string, and Convert.ToDouble
   * of a string (None when it throws).
   */
  datatype Conversions = Conversions(toSingle: Obj -> Option<real>, toBoolean: Obj -> Option<bool>,
                                     toUInt32: Obj -> Option<nat>, render: Obj -> string,
                                     parseDouble: string -> Option<real>)

  datatype Status = Succeeded | Skipped | Failed

  /** The status strings of a result. */
  function StatusName(s: Status): (r: string)
    ensures r in {"success", "skipped", "failed"}
  {
    match s
    case Succeeded => "success"
    case Skipped => "skipped"
    case Failed => "failed"
  }

  /** A K3PropertyModification: the property, the value expected now, the value to write. */
  datatype Modification = Modification(property: string, oldValue: Obj, newValue: Obj)

  /** A PropertyModificationResult. */
  datatype ModResult = ModResult(property: string, oldValue: Obj, expectedValue: Obj, currentValue: Obj,
                                 newValue: Obj, status: Status, message: string)

  /** The message of the exception reading ID throws on a broken component; its text is not part of this model. */
  const IdUnreadableMessage: string

  /** The properties GetPropertyValue can read on some component. */
  const ReadableProperties: set<string> := {"ID", "alpha", "atlasName", "picName", "x", "y", "interactable", "text", "parentID", "maxID"}

  /** The properties SetPropertyValue can write on some component: all readable ones but ID. */
  const WritableProperties: set<string> := {"alpha", "atlasName", "picName", "x", "y", "interactable", "text", "parentID", "maxID"}

  /** `value?.ToString() ?? ""`, also what string interpolation writes for a value. */
  function Text(v: Obj, conv: Conversions): (r: string)
    ensures v == ONull ==> r == ""
    ensures v.OString? ==> r == v.s
  {
    match v
    case ONull => ""
    case OString(s) => s
    case _ => conv.render(v)
  }

  /** The runtime type of a non-null value, as a number. */
  function TypeOf(v: Obj): nat
  {
    match v
    case ONull => 0
    case OString(_) => 1
    case OInt(_) => 2
    case OLong(_) => 3
    case ODouble(_) => 4
    case OSingle(_) => 5
    case OUInt(_) => 6
    case OBool(_) => 7
  }

  /** Convert.ToDouble of a non-null value: None when it throws. */
  function ToDouble(v: Obj, conv: Conversions): Option<real>
    requires v != ONull
  {
    match v
    case OString(s) => conv.parseDouble(s)
    case OInt(i) => Some(i as real)
    case OLong(l) => Some(l as real)
    case ODouble(d) => Some(d)
    case OSingle(f) => Some(f)
    case OUInt(u) => Some(u as real)
    case OBool(b) => Some(if b then 1.0 else 0.0)
  }

  /**
   * CompareValues: two nulls match; null matches nothing else; values of one type match
   * when equal; values of two types match when both convert to the same double.
   */
  function CompareValues(a: Obj, b: Obj, conv: Conversions): bool
  {
    if a == ONull && b == ONull then true
    else if a == ONull || b == ONull then false
    else if TypeOf(a) == TypeOf(b) then a == b
    else ToDouble(a, conv).Some? && ToDouble(b, conv).Some? && ToDouble(a, conv).value == ToDouble(b, conv).value
  }

  /** GetPropertyValue: the value read, or the message of the exception it throws. */
  function Get(f: K3Fields, name: string): Result<Obj, string>
  {
    if name == "ID" then
      if f.id.Some? then Success(OUInt(f.id.value)) else Failure(IdUnreadableMessage)
    else if name == "alpha" then Success(OSingle(f.alpha))
    else if name == "atlasName" then Success(OString(f.atlasName))
    else if name == "picName" then Success(OString(f.picName))
    else if name == "x" then Success(OSingle(f.x))
    else if name == "y" then Success(OSingle(f.y))
    else if name == "interactable" && f.kind.K3Button? then Success(OBool(f.kind.interactable))
    else if name == "text" && f.kind.K3Label? then Success(OString(f.kind.text))
    else if name == "parentID" && f.property.Some? then Success(OUInt(f.property.value.parentID))
    else if name == "maxID" && f.property.Some? then Success(OUInt(f.property.value.maxID))
    else Failure("属性" + name + "不存在或不支持读取")
  }

  /** SetPropertyValue: the new fields and whether the write happened; a failed write changes nothing. */
  function Set(f: K3Fields, name: string, value: Obj, conv: Conversions): (K3Fields, bool)
  {
    if name == "alpha" then
      if conv.toSingle(value).Some? then (f.(alpha := conv.toSingle(value).value), true) else (f, false)
    else if name == "atlasName" then (f.(atlasName := Text(value, conv)), true)
    else if name == "picName" then (f.(picName := Text(value, conv)), true)
    else if name == "x" then
      if conv.toSingle(value).Some? then (f.(x := conv.toSingle(value).value), true) else (f, false)
    else if name == "y" then
      if conv.toSingle(value).Some? then (f.(y := conv.toSingle(value).value), true) else (f, false)
    else if name == "interactable" then
      if f.kind.K3Button? && conv.toBoolean(value).Some? then (f.(kind := K3Button(conv.toBoolean(value).value)), true)
      else (f, false)
    else if name == "text" then
      if f.kind.K3Label? then (f.(kind := K3Label(Text(value, conv))), true) else (f, false)
    else if name == "parentID" && f.property.Some? && conv.toUInt32(value).Some? then
      (f.(property := Some(f.property.value.(parentID := conv.toUInt32(value).value))), true)
    else if name == "maxID" && f.property.Some? && conv.toUInt32(value).Some? then
      (f.(property := Some(f.property.value.(maxID := conv.toUInt32(value).value))), true)
    else (f, false)
  }

  /** One pass of the loop: the fields afterwards and the result recorded. */
  function ModifyOne(f: K3Fields, m: Modification, conv: Conversions): (K3Fields, ModResult)
  {
    match Get(f, m.property)
    case Failure(msg) =>
      (f, ModResult(m.property, m.oldValue, ONull, ONull, m.newValue, Failed, "修改属性" + m.property + "时出错: " + msg))
    case Success(current) =>
      if !CompareValues(current, m.oldValue, conv) then
        (f, ModResult(m.property, m.oldValue, m.oldValue, current, m.newValue, Skipped,
                      "旧值不匹配，期望" + Text(m.oldValue, conv) + "，实际" + Text(current, conv) + "，跳过修改"))
      else
        var (f', ok) := Set(f, m.property, m.newValue, conv);
        (f', ModResult(m.property, m.oldValue, m.oldValue, current, m.newValue,
                       if ok then Succeeded else Failed,
                       if ok then "属性修改成功" else "属性" + m.property + "设置失败"))
  }

  /** ModifyProperties on a component with fields `f`: the fields afterwards and the results. */
  function ModifyAll(f: K3Fields, mods: seq<Modification>, conv: Conversions): (K3Fields, seq<ModResult>)
    decreases |mods|
  {
    if mods == [] then (f, [])
    else
      var (g, rs) := ModifyAll(f, mods[..|mods| - 1], conv);
      var (g', r) := ModifyOne(g, mods[|mods| - 1], conv);
      (g', rs + [r])
  }

  // ----- reading and writing one property -----

  /** Only the ten known names can be read, and ID only while it is readable. */
  lemma GetKnownNames(f: K3Fields, name: string)
    ensures Get(f, name).Success? ==> name in ReadableProperties
    ensures name in {"alpha", "atlasName", "picName", "x", "y"} ==> Get(f, name).Success?
    ensures Get(f, "ID").Success? <==> f.id.Some?
  {
  }

  /** A write touches no property but its own, and a write that fails changes nothing. */
  lemma SetFrame(f: K3Fields, name: string, value: Obj, conv: Conversions)
    ensures !Set(f, name, value, conv).1 ==> Set(f, name, value, conv).0 == f
    ensures Set(f, name, value, conv).1 ==> name in WritableProperties
    ensures forall n :: n != name ==> Get(Set(f, name, value, conv).0, n) == Get(f, n)
    ensures Set(f, name, value, conv).0.id == f.id
  {
  }

  /** ID is never written. */
  lemma IdNotWritable(f: K3Fields, value: Obj, conv: Conversions)
    ensures Set(f, "ID", value, conv) == (f, false)
  {
  }

  /**
   * After a write, reading the property gives the value written, as the property's type
   * holds it: the float, bool or uint conversion of the value, or its text.
   */
  lemma SetThenGet(f: K3Fields, name: string, value: Obj, conv: Conversions)
    requires Set(f, name, value, conv).1
    ensures var g := Set(f, name, value, conv).0;
            && (name in {"alpha", "x", "y"} ==> Get(g, name) == Success(OSingle(conv.toSingle(value).value)))
            && (name in {"atlasName", "picName", "text"} ==> Get(g, name) == Success(OString(Text(value, conv))))
            && (name == "interactable" ==> Get(g, name) == Success(OBool(conv.toBoolean(value).value)))
            && (name in {"parentID", "maxID"} ==> Get(g, name) == Success(OUInt(conv.toUInt32(value).value)))
  {
  }

  // ----- comparing values -----

  /** Every value matches itself, null included. */
  lemma CompareReflexive(a: Obj, conv: Conversions)
    ensures CompareValues(a, a, conv)
  {
  }

  lemma CompareSymmetric(a: Obj, b: Obj, conv: Conversions)
    ensures CompareValues(a, b, conv) == CompareValues(b, a, conv)
  {
  }

  /** Null matches null only. */
  lemma CompareNull(a: Obj, conv: Conversions)
    ensures CompareValues(ONull, a, conv) <==> a == ONull
  {
  }

  /**
   * Numbers of different types match by value: a JSON int matches the uint a K3 ID reads
   * as, and a double matches a float holding the same real value (floating-point values
   * are exact reals here, so rounding is not modelled).
   */
  lemma CompareAcrossTypes(n: nat, x: real, conv: Conversions)
    ensures CompareValues(OUInt(n), OInt(n), conv)
    ensures CompareValues(OUInt(n), OLong(n), conv)
    ensures CompareValues(OSingle(x), ODouble(x), conv)
    ensures n > 0 ==> !CompareValues(OUInt(n), OInt(n - 1), conv)
    ensures CompareValues(OBool(true), OInt(1), conv) && !CompareValues(OBool(true), OInt(0), conv)
  {
  }

  // ----- one modification -----

  /**
   * The optimistic lock: a modification succeeds exactly when the property is readable,
   * its value matches the expected one, and the write happens; it is skipped exactly when
   * the value read does not match. Anything but success leaves the fields as they were.
   */
  lemma ModifyOneMeaning(f: K3Fields, m: Modification, conv: Conversions)
    ensures var (f', r) := ModifyOne(f, m, conv);
            && r.property == m.property && r.oldValue == m.oldValue && r.newValue == m.newValue
            && (r.status == Succeeded <==>
                  Get(f, m.property).Success? && CompareValues(Get(f, m.property).value, m.oldValue, conv) &&
                  Set(f, m.property, m.newValue, conv).1)
            && (r.status == Skipped <==>
                  Get(f, m.property).Success? && !CompareValues(Get(f, m.property).value, m.oldValue, conv))
            && (r.status == Succeeded ==> f' == Set(f, m.property, m.newValue, conv).0)
            && (r.status != Succeeded ==> f' == f)
            && (Get(f, m.property).Success? ==> r.currentValue == Get(f, m.property).value && r.expectedValue == m.oldValue)
            && (Get(f, m.property).Failure? ==> r.currentValue == ONull && r.expectedValue == ONull)
  {
  }

  /** A property no component has is reported as failed, with the read's message, and changes nothing. */
  lemma UnknownPropertyFails(f: K3Fields, m: Modification, conv: Conversions)
    requires m.property !in ReadableProperties
    ensures ModifyOne(f, m, conv) ==
            (f, ModResult(m.property, m.oldValue, ONull, ONull, m.newValue, Failed,
                          "修改属性" + m.property + "时出错: 属性" + m.property + "不存在或不支持读取"))
  {
    var p := m.property;
    assert Get(f, p) == Failure("属性" + p + "不存在或不支持读取");
    assert "时出错: " + "属性" == "时出错: 属性";
    assert "修改属性" + p + "时出错: " + ("属性" + p + "不存在或不支持读取") ==
           "修改属性" + p + ("时出错: " + "属性") + p + "不存在或不支持读取";
  }

  /** Writing back the value just read, expecting it, succeeds on a text property and changes nothing. */
  lemma RewriteSameText(f: K3Fields, name: string, conv: Conversions)
    requires name in {"atlasName", "picName"}
    ensures var m := Modification(name, Get(f, name).value, Get(f, name).value);
            ModifyOne(f, m, conv).1.status == Succeeded && ModifyOne(f, m, conv).0 == f
  {
  }

  // ----- the loop -----

  /** One result per modification, in order, naming its property and carrying its two values. */
  lemma {:induction false} ModifyAllShape(f: K3Fields, mods: seq<Modification>, conv: Conversions)
    ensures |ModifyAll(f, mods, conv).1| == |mods|
    ensures forall i :: 0 <= i < |mods| ==>
              && ModifyAll(f, mods, conv).1[i].property == mods[i].property
              && ModifyAll(f, mods, conv).1[i].oldValue == mods[i].oldValue
              && ModifyAll(f, mods, conv).1[i].newValue == mods[i].newValue
    decreases |mods|
  {
    if mods != [] {
      var init := mods[..|mods| - 1];
      ModifyAllShape(f, init, conv);
      var (g, rs) := ModifyAll(f, init, conv);
      ModifyOneMeaning(g, mods[|mods| - 1], conv);
      assert ModifyAll(f, mods, conv).1 == rs + [ModifyOne(g, mods[|mods| - 1], conv).1];
      forall i | 0 <= i < |init|
        ensures ModifyAll(f, mods, conv).1[i] == rs[i] && mods[i] == init[i]
      {
      }
    }
  }

  /** A batch in which nothing succeeded leaves the component as it was. */
  lemma {:induction false} NoSuccessNoChange(f: K3Fields, mods: seq<Modification>, conv: Conversions)
    requires forall i :: 0 <= i < |ModifyAll(f, mods, conv).1| ==> ModifyAll(f, mods, conv).1[i].status != Succeeded
    ensures ModifyAll(f, mods, conv).0 == f
    decreases |mods|
  {
    if mods != [] {
      var init := mods[..|mods| - 1];
      var (g, rs) := ModifyAll(f, init, conv);
      var (g', r) := ModifyOne(g, mods[|mods| - 1], conv);
      assert ModifyAll(f, mods, conv).1 == rs + [r];
      assert r == ModifyAll(f, mods, conv).1[|rs|];
      forall i | 0 <= i < |rs|
        ensures rs[i].status != Succeeded
      {
        assert rs[i] == ModifyAll(f, mods, conv).1[i];
      }
      NoSuccessNoChange(f, init, conv);
      ModifyOneMeaning(g, mods[|mods| - 1], conv);
    }
  }

  /** One more modification is one more pass of the loop. */
  lemma ModifyAllStep(f: K3Fields, mods: seq<Modification>, i: nat, conv: Conversions)
    requires i < |mods|
    ensures ModifyAll(f, mods[..i + 1], conv) ==
            (ModifyOne(ModifyAll(f, mods[..i], conv).0, mods[i], conv).0,
             ModifyAll(f, mods[..i], conv).1 + [ModifyOne(ModifyAll(f, mods[..i], conv).0, mods[i], conv).1])
  {
    assert mods[..i + 1][..i] == mods[..i];
  }

  /** A K3 component (IK3Component) whose fields the setters write in place. */
  class K3Component {
    var id: Option<nat>
    var alpha: real
    var atlasName: string
    var picName: string
    var x: real
    var y: real
    var kind: K3Kind
    var property: Option<K3Property>

    function State(): K3Fields
      reads this
    {
      K3Fields(id, alpha, atlasName, picName, x, y, kind, property)
    }

    constructor (f: K3Fields)
      ensures State() == f
    {
      id, alpha, atlasName, picName, x, y, kind, property := f.id, f.alpha, f.atlasName, f.picName, f.x, f.y, f.kind, f.property;
    }

    /** SetPropertyValue: writes one property through its conversion; false when it cannot. */
    method SetPropertyValue(name: string, value: Obj, conv: Conversions) returns (ok: bool)
      modifies this
      ensures (State(), ok) == Set(old(State()), name, value, conv)
    {
      ok := false;
      if name == "alpha" {
        var v := conv.toSingle(value);
        if v.Some? {
          alpha, ok := v.value, true;
        }
      } else if name == "atlasName" {
        atlasName, ok := Text(value, conv), true;
      } else if name == "picName" {
        picName, ok := Text(value, conv), true;
      } else if name == "x" {
        var v := conv.toSingle(value);
        if v.Some? {
          x, ok := v.value, true;
        }
      } else if name == "y" {
        var v := conv.toSingle(value);
        if v.Some? {
          y, ok := v.value, true;
        }
      } else if name == "interactable" {
        if kind.K3Button? {
          var b := conv.toBoolean(value);
          if b.Some? {
            kind, ok := K3Button(b.value), true;
          }
        }
      } else if name == "text" {
        if kind.K3Label? {
          kind, ok := K3Label(Text(value, conv)), true;
        }
      } else if property.Some? && (name == "parentID" || name == "maxID") {
        var u := conv.toUInt32(value);
        if u.Some? {
          if name == "parentID" {
            property := Some(property.value.(parentID := u.value));
          } else {
            property := Some(property.value.(maxID := u.value));
          }
          ok := true;
        }
      }
    }
  }

  /**
   * ModifyProperties: no results for a missing component; otherwise the component ends
   * as ModifyAll says, with one result per modification.
   */
  method ModifyProperties(component: K3Component?, mods: seq<Modification>, conv: Conversions)
    returns (results: seq<ModResult>)
    modifies component
    ensures component == null ==> results == []
    ensures component != null ==> (component.State(), results) == ModifyAll(old(component.State()), mods, conv)
  {
    results := [];
    if component == null {
      return;
    }
    ghost var initial := component.State();
    var i := 0;
    while i < |mods|
      invariant 0 <= i <= |mods|
      invariant (component.State(), results) == ModifyAll(initial, mods[..i], conv)
    {
      ModifyAllStep(initial, mods, i, conv);
      var m := mods[i];
      var current := Get(component.State(), m.property);
      var result: ModResult;
      if current.Failure? {
        result := ModResult(m.property, m.oldValue, ONull, ONull, m.newValue, Failed,
                            "修改属性" + m.property + "时出错: " + current.error);
      } else if !CompareValues(current.value, m.oldValue, conv) {
        result := ModResult(m.property, m.oldValue, m.oldValue, current.value, m.newValue, Skipped,
                            "旧值不匹配，期望" + Text(m.oldValue, conv) + "，实际" + Text(current.value, conv) + "，跳过修改");
      } else {
        var ok := component.SetPropertyValue(m.property, m.newValue, conv);
        if ok {
          result := ModResult(m.property, m.oldValue, m.oldValue, current.value, m.newValue, Succeeded, "属性修改成功");
        } else {
          result := ModResult(m.property, m.oldValue, m.oldValue, current.value, m.newValue, Failed,
                              "属性" + m.property + "设置失败");
        }
      }
      results := results + [result];
      i := i + 1;
    }
    assert mods[..|mods|] == mods;
  }
}
