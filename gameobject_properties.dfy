// GameObjectPropertyModifier (UnitySkills/AgentCommands/Utils/GameObjectPropertyModifier.cs):
// sets a game object's name, tag, layer, active flag, static flag and hide flags from
// a JSON object, reports the properties whose value changed, and returns all six.
//
// The JSON object's keys are visited in the order the object holds them, given as
// `keys`. LayerMask.NameToLayer and Unity's check of a tag are inputs (`env`).
module GameObjectProperties {
  import opened Wrappers
  import opened Text
  import opened JsonValues
  import opened Commands

  const SupportedProperties: set<string> := {"name", "tag", "layer", "isActive", "isStatic", "hideFlags"}

  const PropertiesEmptyMessage := "properties对象不能为空, 至少需要指定一个要修改的属性"
  const NameNotStringMessage := "name属性值必须是字符串"
  const TagNotStringMessage := "tag属性值必须是字符串"
  const LayerNullMessage := "layer属性值不能为null"
  const LayerKindMessage := "layer属性值必须是整数或字符串"
  const IsActiveNotBoolMessage := "isActive属性值必须是布尔值"
  const IsStaticNotBoolMessage := "isStatic属性值必须是布尔值"
  const HideFlagsNullMessage := "hideFlags属性值不能为null"
  const HideFlagsNotIntMessage := "hideFlags属性值必须是整数(HideFlags枚举值)"
  /** The messages .NET gives ArgumentNullException and Unity gives an undefined tag; their texts are not part of this model. */
  const ArgumentNullMessage: string
  const UndefinedTagMessage: string

  /** The value of one property, as GetCurrentProperties boxes it. */
  datatype PropValue = PString(s: string) | PInt(i: int) | PBool(b: bool)

  datatype PropertyChange = PropertyChange(name: string, oldValue: PropValue, newValue: PropValue)

  /** The six properties of a game object. */
  datatype Props = Props(name: string, tag: string, layer: int, activeSelf: bool, isStatic: bool, hideFlags: int)

  /** What Unity answers: LayerMask.NameToLayer, and whether a tag can be assigned. */
  datatype UnityEnv = UnityEnv(nameToLayer: string -> int, tagDefined: string -> bool)

  /** GetCurrentProperties, one entry. */
  function Value(p: Props, key: string): PropValue
    requires key in SupportedProperties
  {
    if key == "name" then PString(p.name)
    else if key == "tag" then PString(p.tag)
    else if key == "layer" then PInt(p.layer)
    else if key == "isActive" then PBool(p.activeSelf)
    else if key == "isStatic" then PBool(p.isStatic)
    else PInt(p.hideFlags)
  }

  /** GetCurrentPropertiesAsJson. */
  function PropertiesJson(p: Props): Json
  {
    JObject(map["name" := JString(p.name), "tag" := JString(p.tag), "layer" := JInt(p.layer),
                "isActive" := JBool(p.activeSelf), "isStatic" := JBool(p.isStatic), "hideFlags" := JInt(p.hideFlags)])
  }

  /** The layer a layer value names: an int as is, a string through NameToLayer. */
  function LayerOf(value: Json, env: UnityEnv): int
    requires value.JInt? || value.JString?
  {
    if value.JInt? then value.i else env.nameToLayer(value.s)
  }

  /**
   * The Modify* method for one property: the new properties and the value set, or the
   * message of the exception it throws before setting anything.
   */
  function Modify(p: Props, key: string, value: Json, env: UnityEnv): Result<(Props, PropValue), string>
    requires key in SupportedProperties
  {
    if key == "name" then
      if value.JString? then Success((p.(name := value.s), PString(value.s))) else Failure(NameNotStringMessage)
    else if key == "tag" then
      if !value.JString? then Failure(TagNotStringMessage)
      else if !env.tagDefined(value.s) then Failure(UndefinedTagMessage)
      else Success((p.(tag := value.s), PString(value.s)))
    else if key == "layer" then
      if value == JNull then Failure(LayerNullMessage)
      else if value.JString? && env.nameToLayer(value.s) == -1 then Failure("layer名称无效: " + value.s)
      else if !(value.JInt? || value.JString?) then Failure(LayerKindMessage)
      else
        var layer := LayerOf(value, env);
        if layer < 0 || layer > 31 then Failure("layer属性值必须是0-31之间的整数, 当前值: " + IntToString(layer))
        else Success((p.(layer := layer), PInt(layer)))
    else if key == "isActive" then
      if value.JBool? then Success((p.(activeSelf := value.b), PBool(value.b))) else Failure(IsActiveNotBoolMessage)
    else if key == "isStatic" then
      if value.JBool? then Success((p.(isStatic := value.b), PBool(value.b))) else Failure(IsStaticNotBoolMessage)
    else
      if value == JNull then Failure(HideFlagsNullMessage)
      else if value.JInt? then Success((p.(hideFlags := value.i), PInt(value.i)))
      else Failure(HideFlagsNotIntMessage)
  }

  /** The values each property accepts: a string name and tag, a bool flag, an int hide-flags value, and a layer in 0..31 given as an int or a layer name. */
  predicate Accepted(key: string, value: Json, env: UnityEnv)
  {
    && key in SupportedProperties
    && if key == "name" then value.JString?
       else if key == "tag" then value.JString? && env.tagDefined(value.s)
       else if key == "layer" then (value.JInt? || value.JString?) && 0 <= LayerOf(value, env) <= 31
       else if key == "isActive" || key == "isStatic" then value.JBool?
       else value.JInt?
  }

  /** The value an accepted property ends up with. */
  function NewValue(key: string, value: Json, env: UnityEnv): PropValue
    requires Accepted(key, value, env)
  {
    if key == "name" || key == "tag" then PString(value.s)
    else if key == "layer" then PInt(LayerOf(value, env))
    else if key == "isActive" || key == "isStatic" then PBool(value.b)
    else PInt(value.i)
  }

  /** The properties after one step: the new ones, or the old ones when the step threw. */
  function PropsAfter(p: Props, m: Result<(Props, PropValue), string>): Props
  {
    if m.Success? then m.value.0 else p
  }

  function ValueOutcome(m: Result<(Props, PropValue), string>): Result<PropValue, string>
  {
    if m.Success? then Success(m.value.1) else Failure(m.error)
  }

  /** The loop body for one key: the check of the key, the Modify* call, and the change record. */
  function Apply(initial: Props, p: Props, changes: seq<PropertyChange>, fields: map<string, Json>, key: string, env: UnityEnv)
    : (Props, Result<seq<PropertyChange>, Exception>)
    requires key in fields
  {
    if key !in SupportedProperties then (p, Failure(Exception(ArgumentException, "GameObject不支持属性: " + key)))
    else match Modify(p, key, fields[key], env)
      case Failure(msg) => (p, Failure(Exception(ArgumentException, "修改属性" + key + "失败: " + msg)))
      case Success((p', newValue)) =>
        var oldValue := Value(initial, key);
        (p', Success(if oldValue != newValue then changes + [PropertyChange(key, oldValue, newValue)] else changes))
  }

  /** The loop over `keys`, from the properties `initial`: it stops at the first exception. */
  function ModifyEach(initial: Props, fields: map<string, Json>, keys: seq<string>, env: UnityEnv)
    : (Props, Result<seq<PropertyChange>, Exception>)
    requires forall k :: k in keys ==> k in fields
    decreases |keys|
  {
    if keys == [] then (initial, Success([]))
    else
      var (p, acc) := ModifyEach(initial, fields, keys[..|keys| - 1], env);
      if acc.Failure? then (p, acc) else Apply(initial, p, acc.value, fields, keys[|keys| - 1], env)
  }

  /** `keys` lists the keys of an object node once each, in its order. */
  ghost predicate KeyOrder(properties: Json, keys: seq<string>)
  {
    properties.JObject? ==>
      && (forall k :: k in keys <==> k in properties.fields)
      && (forall i, j :: 0 <= i < j < |keys| ==> keys[i] != keys[j])
  }

  /**
   * ModifyProperties on a game object with properties `p`: the new properties (partly
   * modified when a later key throws), and the six current values with the list of
   * changes, or the exception.
   */
  function ModifyPropertiesOf(p: Props, properties: Json, keys: seq<string>, env: UnityEnv)
    : (Props, Result<(Json, seq<PropertyChange>), Exception>)
    requires KeyOrder(properties, keys)
  {
    if !properties.JObject? || |properties.fields| == 0 then (p, Failure(Exception(ArgumentException, PropertiesEmptyMessage)))
    else
      var (p', r) := ModifyEach(p, properties.fields, keys, env);
      (p', if r.Failure? then Failure(r.error) else Success((PropertiesJson(p'), r.value)))
  }

  /** The changes the loop records when every key is accepted: one per key whose new value differs from its value before the call. */
  function ExpectedChanges(initial: Props, fields: map<string, Json>, keys: seq<string>, env: UnityEnv): seq<PropertyChange>
    requires forall k :: k in keys ==> k in fields && Accepted(k, fields[k], env)
    decreases |keys|
  {
    if keys == [] then []
    else
      var k := keys[|keys| - 1];
      assert k in keys && Accepted(k, fields[k], env);
      ExpectedChanges(initial, fields, keys[..|keys| - 1], env) +
      (if Value(initial, k) != NewValue(k, fields[k], env) then [PropertyChange(k, Value(initial, k), NewValue(k, fields[k], env))] else [])
  }

  // ----- one property -----

  /**
   * A Modify* call succeeds exactly for an accepted value; it then sets that property to
   * the value's new value and leaves the other five alone.
   */
  lemma ModifyMeaning(p: Props, key: string, value: Json, env: UnityEnv)
    requires key in SupportedProperties
    ensures Modify(p, key, value, env).Success? <==> Accepted(key, value, env)
    ensures Modify(p, key, value, env).Success? ==>
              var (p', v) := Modify(p, key, value, env).value;
              && v == NewValue(key, value, env)
              && Value(p', key) == v
              && forall k :: k in SupportedProperties && k != key ==> Value(p', k) == Value(p, k)
  {
  }

  /** A layer outside 0..31 is refused, whether given as an int or through a layer name. */
  lemma LayerOutOfRangeRejected(p: Props, value: Json, env: UnityEnv)
    requires value.JInt? || value.JString?
    requires LayerOf(value, env) < 0 || LayerOf(value, env) > 31
    ensures Modify(p, "layer", value, env).Failure?
  {
  }

  // ----- the loop -----

  lemma {:induction false} ModifyEachSucceedsIff(initial: Props, fields: map<string, Json>, keys: seq<string>, env: UnityEnv)
    requires forall k :: k in keys ==> k in fields
    ensures ModifyEach(initial, fields, keys, env).1.Success? <==> forall k :: k in keys ==> Accepted(k, fields[k], env)
    ensures ModifyEach(initial, fields, keys, env).1.Failure? ==>
              ModifyEach(initial, fields, keys, env).1.error.kind == ArgumentException
    decreases |keys|
  {
    if keys != [] {
      var init := keys[..|keys| - 1];
      var k := keys[|keys| - 1];
      assert forall x :: x in keys <==> x in init || x == k;
      ModifyEachSucceedsIff(initial, fields, init, env);
      var (p, acc) := ModifyEach(initial, fields, init, env);
      if acc.Success? && k in SupportedProperties {
        ModifyMeaning(p, k, fields[k], env);
        assert ModifyEach(initial, fields, keys, env).1.Success? <==> Modify(p, k, fields[k], env).Success?;
      } else if acc.Success? {
        assert !Accepted(k, fields[k], env);
        assert ModifyEach(initial, fields, keys, env).1.Failure?;
      } else {
        assert ModifyEach(initial, fields, keys, env).1 == acc;
      }
    }
  }

  /** When every key is accepted the loop records the expected changes. */
  lemma {:induction false} ModifyEachChanges(initial: Props, fields: map<string, Json>, keys: seq<string>, env: UnityEnv)
    requires forall k :: k in keys ==> k in fields && Accepted(k, fields[k], env)
    ensures ModifyEach(initial, fields, keys, env).1 == Success(ExpectedChanges(initial, fields, keys, env))
    decreases |keys|
  {
    if keys != [] {
      var init := keys[..|keys| - 1];
      var k := keys[|keys| - 1];
      assert k in keys && Accepted(k, fields[k], env);
      ModifyEachChanges(initial, fields, init, env);
      var (p, acc) := ModifyEach(initial, fields, init, env);
      ModifyMeaning(p, k, fields[k], env);
      var m := Modify(p, k, fields[k], env);
      assert m.Success? && m.value.1 == NewValue(k, fields[k], env);
      assert ModifyEach(initial, fields, keys, env) == Apply(initial, p, acc.value, fields, k, env);
      var old_, new_ := Value(initial, k), NewValue(k, fields[k], env);
      var tail := if old_ != new_ then [PropertyChange(k, old_, new_)] else [];
      assert acc.value + [] == acc.value;
      assert Apply(initial, p, acc.value, fields, k, env).1 == Success(acc.value + tail);
      assert ExpectedChanges(initial, fields, keys, env) == ExpectedChanges(initial, fields, init, env) + tail;
    }
  }

  /**
   * When every key is accepted and listed once, each property ends with the new value of
   * its key, or its value before the call when not listed.
   */
  lemma {:induction false} ModifyEachValues(initial: Props, fields: map<string, Json>, keys: seq<string>, env: UnityEnv)
    requires forall k :: k in keys ==> k in fields && Accepted(k, fields[k], env)
    requires forall i, j :: 0 <= i < j < |keys| ==> keys[i] != keys[j]
    ensures forall k :: k in SupportedProperties ==>
              Value(ModifyEach(initial, fields, keys, env).0, k) == (if k in keys then NewValue(k, fields[k], env) else Value(initial, k))
    decreases |keys|
  {
    if keys != [] {
      var init := keys[..|keys| - 1];
      var k := keys[|keys| - 1];
      assert forall x :: x in keys <==> x in init || x == k;
      assert k !in init by {
        forall i | 0 <= i < |init| ensures init[i] != k {
          assert init[i] == keys[i];
        }
      }
      ModifyEachValues(initial, fields, init, env);
      ModifyEachChanges(initial, fields, init, env);
      var (p, acc) := ModifyEach(initial, fields, init, env);
      ModifyMeaning(p, k, fields[k], env);
      var p' := ModifyEach(initial, fields, keys, env).0;
      assert p' == Modify(p, k, fields[k], env).value.0;
      forall x | x in SupportedProperties
        ensures Value(p', x) == (if x in keys then NewValue(x, fields[x], env) else Value(initial, x))
      {
        if x != k {
          assert Value(p', x) == Value(p, x);
        }
      }
    }
  }

  lemma {:induction false} ExpectedChangesMembers(initial: Props, fields: map<string, Json>, keys: seq<string>, env: UnityEnv)
    requires forall k :: k in keys ==> k in fields && Accepted(k, fields[k], env)
    ensures var cs := ExpectedChanges(initial, fields, keys, env);
            && (forall i :: 0 <= i < |cs| ==>
                  && cs[i].name in keys
                  && cs[i].oldValue == Value(initial, cs[i].name)
                  && cs[i].newValue == NewValue(cs[i].name, fields[cs[i].name], env)
                  && cs[i].oldValue != cs[i].newValue)
            && (forall k :: k in keys && Value(initial, k) != NewValue(k, fields[k], env) ==>
                  exists i :: 0 <= i < |cs| && cs[i].name == k)
    decreases |keys|
  {
    if keys != [] {
      var init := keys[..|keys| - 1];
      var k := keys[|keys| - 1];
      assert forall x :: x in keys <==> x in init || x == k;
      ExpectedChangesMembers(initial, fields, init, env);
      var prev := ExpectedChanges(initial, fields, init, env);
      var cs := ExpectedChanges(initial, fields, keys, env);
      assert forall i :: 0 <= i < |prev| ==> cs[i] == prev[i];
      if Value(initial, k) != NewValue(k, fields[k], env) {
        assert cs[|prev|].name == k;
      }
    }
  }

  /** Once a key throws, the later keys are never visited. */
  lemma {:induction false} ModifyEachStops(initial: Props, fields: map<string, Json>, keys: seq<string>, n: nat, env: UnityEnv)
    requires forall k :: k in keys ==> k in fields
    requires n <= |keys| && ModifyEach(initial, fields, keys[..n], env).1.Failure?
    ensures ModifyEach(initial, fields, keys, env) == ModifyEach(initial, fields, keys[..n], env)
    decreases |keys|
  {
    if n < |keys| {
      var init := keys[..|keys| - 1];
      assert init[..n] == keys[..n];
      ModifyEachStops(initial, fields, init, n, env);
    } else {
      assert keys[..n] == keys;
    }
  }

  /** One more key after a prefix that did not throw is one more loop body. */
  lemma ModifyEachStep(initial: Props, fields: map<string, Json>, keys: seq<string>, i: nat, env: UnityEnv)
    requires forall k :: k in keys ==> k in fields
    requires i < |keys| && ModifyEach(initial, fields, keys[..i], env).1.Success?
    ensures keys[i] in fields
    ensures ModifyEach(initial, fields, keys[..i + 1], env) ==
            Apply(initial, ModifyEach(initial, fields, keys[..i], env).0,
                  ModifyEach(initial, fields, keys[..i], env).1.value, fields, keys[i], env)
  {
    assert keys[..i + 1][..i] == keys[..i];
  }

  // ----- the whole call -----

  /** A null, non-object or empty properties value throws and changes nothing. */
  lemma EmptyPropertiesRejected(p: Props, properties: Json, keys: seq<string>, env: UnityEnv)
    requires KeyOrder(properties, keys)
    requires !properties.JObject? || properties.fields == map[]
    ensures ModifyPropertiesOf(p, properties, keys, env) == (p, Failure(Exception(ArgumentException, PropertiesEmptyMessage)))
  {
  }

  /**
   * ModifyProperties returns exactly when the properties object is non-empty and every
   * key is one of the six with an accepted value; otherwise it throws an
   * ArgumentException.
   */
  lemma ModifyPropertiesSucceedsIff(p: Props, properties: Json, keys: seq<string>, env: UnityEnv)
    requires KeyOrder(properties, keys)
    ensures var r := ModifyPropertiesOf(p, properties, keys, env).1;
            && (r.Success? <==> properties.JObject? && properties.fields != map[] &&
                                forall k :: k in properties.fields ==> Accepted(k, properties.fields[k], env))
            && (r.Failure? ==> r.error.kind == ArgumentException)
  {
    if properties.JObject? {
      ModifyEachSucceedsIff(p, properties.fields, keys, env);
      if properties.fields != map[] {
        var k :| k in properties.fields;
        assert k in keys;
      }
    }
  }

  /**
   * A successful call sets each listed property to its new value and leaves the others,
   * and returns the six final values.
   */
  lemma ModifyPropertiesEffect(p: Props, properties: Json, keys: seq<string>, env: UnityEnv)
    requires KeyOrder(properties, keys)
    requires ModifyPropertiesOf(p, properties, keys, env).1.Success?
    ensures properties.JObject?
    ensures forall k :: k in properties.fields ==> Accepted(k, properties.fields[k], env)
    ensures ModifyPropertiesOf(p, properties, keys, env).1.value.0 == PropertiesJson(ModifyPropertiesOf(p, properties, keys, env).0)
    ensures forall k :: k in SupportedProperties ==>
              Value(ModifyPropertiesOf(p, properties, keys, env).0, k) ==
              (if k in properties.fields then NewValue(k, properties.fields[k], env) else Value(p, k))
  {
    ModifyPropertiesSucceedsIff(p, properties, keys, env);
    var fields := properties.fields;
    ModifyEachValues(p, fields, keys, env);
  }

  /**
   * The change list of a successful call holds exactly the listed properties whose value
   * changed, each with its value before and after.
   */
  lemma ModifyPropertiesChanges(p: Props, properties: Json, keys: seq<string>, env: UnityEnv)
    requires KeyOrder(properties, keys)
    requires ModifyPropertiesOf(p, properties, keys, env).1.Success?
    ensures var p' := ModifyPropertiesOf(p, properties, keys, env).0;
            var cs := ModifyPropertiesOf(p, properties, keys, env).1.value.1;
            && (forall i :: 0 <= i < |cs| ==>
                  && cs[i].name in properties.fields && cs[i].name in SupportedProperties
                  && cs[i].oldValue == Value(p, cs[i].name) && cs[i].newValue == Value(p', cs[i].name)
                  && cs[i].oldValue != cs[i].newValue)
            && (forall k :: k in properties.fields && k in SupportedProperties && Value(p', k) != Value(p, k) ==>
                  exists i :: 0 <= i < |cs| && cs[i].name == k)
  {
    ModifyPropertiesEffect(p, properties, keys, env);
    var fields := properties.fields;
    ModifyEachChanges(p, fields, keys, env);
    ExpectedChangesMembers(p, fields, keys, env);
  }

  /** The game object's six properties, as fields the modifier sets in place. */
  class Target {
    var name: string
    var tag: string
    var layer: int
    var activeSelf: bool
    var isStatic: bool
    var hideFlags: int

    function State(): Props
      reads this
    {
      Props(name, tag, layer, activeSelf, isStatic, hideFlags)
    }

    constructor (p: Props)
      ensures State() == p
    {
      name, tag, layer, activeSelf, isStatic, hideFlags := p.name, p.tag, p.layer, p.activeSelf, p.isStatic, p.hideFlags;
    }

    method ModifyName(value: Json) returns (r: Result<PropValue, string>)
      modifies this
      ensures value.JString? ==> State() == old(State()).(name := value.s) && r == Success(PString(value.s))
      ensures !value.JString? ==> State() == old(State()) && r == Failure(NameNotStringMessage)
    {
      if !value.JString? {
        return Failure(NameNotStringMessage);
      }
      name := value.s;
      return Success(PString(value.s));
    }

    method ModifyTag(value: Json, env: UnityEnv) returns (r: Result<PropValue, string>)
      modifies this
      ensures var m := Modify(old(State()), "tag", value, env);
              State() == PropsAfter(old(State()), m) && r == ValueOutcome(m)
    {
      if !value.JString? {
        return Failure(TagNotStringMessage);
      }
      if !env.tagDefined(value.s) {
        return Failure(UndefinedTagMessage);
      }
      tag := value.s;
      return Success(PString(value.s));
    }

    method ModifyLayer(value: Json, env: UnityEnv) returns (r: Result<PropValue, string>)
      modifies this
      ensures var m := Modify(old(State()), "layer", value, env);
              State() == PropsAfter(old(State()), m) && r == ValueOutcome(m)
    {
      if value == JNull {
        return Failure(LayerNullMessage);
      }
      var newLayer: int;
      if value.JInt? {
        newLayer := value.i;
      } else if value.JString? {
        newLayer := env.nameToLayer(value.s);
        if newLayer == -1 {
          return Failure("layer名称无效: " + value.s);
        }
      } else {
        return Failure(LayerKindMessage);
      }
      if newLayer < 0 || newLayer > 31 {
        return Failure("layer属性值必须是0-31之间的整数, 当前值: " + IntToString(newLayer));
      }
      layer := newLayer;
      return Success(PInt(newLayer));
    }

    method ModifyIsActive(value: Json) returns (r: Result<PropValue, string>)
      modifies this
      ensures value.JBool? ==> State() == old(State()).(activeSelf := value.b) && r == Success(PBool(value.b))
      ensures !value.JBool? ==> State() == old(State()) && r == Failure(IsActiveNotBoolMessage)
    {
      if !value.JBool? {
        return Failure(IsActiveNotBoolMessage);
      }
      activeSelf := value.b;
      return Success(PBool(value.b));
    }

    method ModifyIsStatic(value: Json) returns (r: Result<PropValue, string>)
      modifies this
      ensures value.JBool? ==> State() == old(State()).(isStatic := value.b) && r == Success(PBool(value.b))
      ensures !value.JBool? ==> State() == old(State()) && r == Failure(IsStaticNotBoolMessage)
    {
      if !value.JBool? {
        return Failure(IsStaticNotBoolMessage);
      }
      isStatic := value.b;
      return Success(PBool(value.b));
    }

    method ModifyHideFlags(value: Json) returns (r: Result<PropValue, string>)
      modifies this
      ensures value.JInt? ==> State() == old(State()).(hideFlags := value.i) && r == Success(PInt(value.i))
      ensures value == JNull ==> State() == old(State()) && r == Failure(HideFlagsNullMessage)
      ensures !value.JInt? && value != JNull ==> State() == old(State()) && r == Failure(HideFlagsNotIntMessage)
    {
      if value == JNull {
        return Failure(HideFlagsNullMessage);
      }
      if !value.JInt? {
        return Failure(HideFlagsNotIntMessage);
      }
      hideFlags := value.i;
      return Success(PInt(value.i));
    }

    /** The switch of ModifyProperties: the Modify* method for `key`. */
    method ModifyProperty(key: string, value: Json, env: UnityEnv) returns (r: Result<PropValue, string>)
      requires key in SupportedProperties
      modifies this
      ensures var m := Modify(old(State()), key, value, env);
              State() == PropsAfter(old(State()), m) && r == ValueOutcome(m)
    {
      if key == "name" {
        r := ModifyName(value);
      } else if key == "tag" {
        r := ModifyTag(value, env);
      } else if key == "layer" {
        r := ModifyLayer(value, env);
      } else if key == "isActive" {
        r := ModifyIsActive(value);
      } else if key == "isStatic" {
        r := ModifyIsStatic(value);
      } else {
        r := ModifyHideFlags(value);
      }
    }
  }

  /**
   * ModifyProperties: a null target throws ArgumentNullException; otherwise the target
   * ends as ModifyPropertiesOf says, partly modified when a later key throws.
   */
  method ModifyProperties(target: Target?, properties: Json, keys: seq<string>, env: UnityEnv)
    returns (r: Result<(Json, seq<PropertyChange>), Exception>)
    requires KeyOrder(properties, keys)
    modifies target
    ensures target == null ==> r == Failure(Exception(ArgumentException, ArgumentNullMessage))
    ensures target != null ==> (target.State(), r) == ModifyPropertiesOf(old(target.State()), properties, keys, env)
  {
    if target == null {
      return Failure(Exception(ArgumentException, ArgumentNullMessage));
    }
    if !properties.JObject? || |properties.fields| == 0 {
      return Failure(Exception(ArgumentException, PropertiesEmptyMessage));
    }
    var fields := properties.fields;
    var oldValues := target.State();
    var modified: seq<PropertyChange> := [];
    var i := 0;
    while i < |keys|
      invariant 0 <= i <= |keys|
      invariant (target.State(), Success(modified)) == ModifyEach(oldValues, fields, keys[..i], env)
    {
      var propName := keys[i];
      ModifyEachStep(oldValues, fields, keys, i, env);
      ghost var step := Apply(oldValues, target.State(), modified, fields, propName, env);
      if propName !in SupportedProperties {
        ModifyEachStops(oldValues, fields, keys, i + 1, env);
        return Failure(Exception(ArgumentException, "GameObject不支持属性: " + propName));
      }
      var oldValue := Value(oldValues, propName);
      var newValue := target.ModifyProperty(propName, fields[propName], env);
      if newValue.Failure? {
        ModifyEachStops(oldValues, fields, keys, i + 1, env);
        return Failure(Exception(ArgumentException, "修改属性" + propName + "失败: " + newValue.error));
      }
      if oldValue != newValue.value {
        modified := modified + [PropertyChange(propName, oldValue, newValue.value)];
      }
      assert (target.State(), Success(modified)) == step;
      i := i + 1;
    }
    assert keys[..|keys|] == keys;
    return Success((PropertiesJson(target.State()), modified));
  }
}
