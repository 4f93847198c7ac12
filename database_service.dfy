/**
 * Services/DatabaseService.php: the metadata of one entity property
 * (`parsePropertyAnnotation`), the rules by which `appendDataToObject`
 * copies an input array onto an entity through its setters, and the
 * `getObject` dispatch between `find` and `findOneBy`.
 */
module DatabaseService {
  import opened Common
  import opened Reflection

  // ---------------------------------------------------------------------
  // ASCII case

  predicate IsUpper(c: char)
  {
    'A' <= c <= 'Z'
  }

  predicate IsLower(c: char)
  {
    'a' <= c <= 'z'
  }

  /** `strtolower` on one character: ASCII letters only. */
  function Lower(c: char): (r: char)
    ensures !IsUpper(r)
    ensures IsUpper(c) ==> IsLower(r)
    ensures !IsUpper(c) ==> r == c
  {
    if IsUpper(c) then (c as int + 32) as char else c
  }

  /** `strtoupper` on one character: ASCII letters only. */
  function Upper(c: char): (r: char)
    ensures IsLower(c) ==> IsUpper(r) && Lower(r) == c
    ensures !IsLower(c) ==> r == c
  {
    if IsLower(c) then (c as int - 32) as char else c
  }

  /** `strtolower` on a string. */
  function LowerAll(s: string): (r: string)
    ensures |r| == |s|
    ensures forall i :: 0 <= i < |s| ==> r[i] == Lower(s[i])
  {
    seq(|s|, i requires 0 <= i < |s| => Lower(s[i]))
  }

  predicate NoUpper(s: string)
  {
    forall i :: 0 <= i < |s| ==> !IsUpper(s[i])
  }

  function UpperCount(s: string): nat
    decreases |s|
  {
    if s == [] then 0 else (if IsUpper(s[0]) then 1 else 0) + UpperCount(s[1..])
  }

  // ---------------------------------------------------------------------
  // serializedName and setterName

  /**
   * `strtolower(preg_replace('/[A-Z]/', '_\0', name))`: camelCase to
   * snake_case. An underscore goes before every ASCII capital, which is then
   * lowered; nothing else changes.
   */
  function SerializedName(name: string): (r: string)
    ensures |r| == |name| + UpperCount(name)
    decreases |name|
  {
    if name == [] then []
    else
      (if IsUpper(name[0]) then ['_', Lower(name[0])] else [name[0]]) + SerializedName(name[1..])
  }

  /** The serialized name has no capitals, is one character longer per capital, and a name without capitals is unchanged. */
  lemma {:induction false} SerializedNameShape(name: string)
    ensures NoUpper(SerializedName(name))
    ensures NoUpper(name) ==> SerializedName(name) == name
    ensures |SerializedName(name)| == |name| + UpperCount(name)
    decreases |name|
  {
    if name != [] {
      var rest := SerializedName(name[1..]);
      var h := if IsUpper(name[0]) then ['_', Lower(name[0])] else [name[0]];
      SerializedNameShape(name[1..]);
      assert SerializedName(name) == h + rest;
      assert NoUpper(h);
      if NoUpper(name) {
        assert NoUpper(name[1..]) by {
          forall i | 0 <= i < |name[1..]| ensures !IsUpper(name[1..][i]) {
            assert name[1..][i] == name[i + 1];
          }
        }
        assert h == [name[0]];
        assert name == [name[0]] + name[1..];
      }
    }
  }

  /** snake_case back to camelCase: an underscore before a lower-case letter becomes that letter's capital. */
  function FromSnake(s: string): string
    decreases |s|
  {
    if s == [] then []
    else if |s| >= 2 && s[0] == '_' && IsLower(s[1]) then [Upper(s[1])] + FromSnake(s[2..])
    else [s[0]] + FromSnake(s[1..])
  }

  /** For property names without underscores the serialized name determines the property. */
  lemma {:induction false} FromSnakeSerializedName(name: string)
    requires '_' !in name
    ensures FromSnake(SerializedName(name)) == name
    decreases |name|
  {
    if name != [] {
      FromSnakeSerializedName(name[1..]);
      var rest := SerializedName(name[1..]);
      assert name == [name[0]] + name[1..];
      if IsUpper(name[0]) {
        var r := ['_', Lower(name[0])] + rest;
        assert r[2..] == rest;
      } else {
        var r := [name[0]] + rest;
        assert r[1..] == rest;
        assert !(|r| >= 2 && r[0] == '_');
      }
    }
  }

  /** Two underscore-free property names never share a serialized name. */
  lemma SerializedNameInjective(a: string, b: string)
    requires '_' !in a && '_' !in b
    requires SerializedName(a) == SerializedName(b)
    ensures a == b
  {
    FromSnakeSerializedName(a);
    FromSnakeSerializedName(b);
  }

  /** With an underscore allowed, `aB` and `a_b` read the same input key. */
  lemma SerializedNameCollision()
    ensures SerializedName("aB") == SerializedName("a_b") == "a_b"
  {
    assert SerializedName("aB") == ['a'] + SerializedName("B");
    assert SerializedName("B") == ['_', 'b'] + SerializedName("");
    assert SerializedName("a_b") == ['a'] + SerializedName("_b");
    assert SerializedName("_b") == ['_'] + SerializedName("b");
    assert SerializedName("b") == ['b'] + SerializedName("");
  }

  /** `ucfirst`: the first character in upper case, when it is an ASCII letter. */
  function Ucfirst(s: string): (r: string)
    ensures |r| == |s|
    ensures s != [] ==> r[0] == Upper(s[0]) && r[1..] == s[1..]
  {
    if s == [] then [] else [Upper(s[0])] + s[1..]
  }

  /** `'set' . ucfirst(name)`: "set", the first character capitalised, then the rest of the name. */
  function SetterName(name: string): (r: string)
    ensures |r| == |name| + 3 && r[..3] == "set"
    ensures name != [] ==> r[3] == Upper(name[0]) && r[4..] == name[1..]
  {
    "set" + Ucfirst(name)
  }

  /** PHP method names are case-insensitive: the setter is looked up as "set" + the lowered name. */
  lemma SetterNameLowered(name: string)
    ensures LowerAll(SetterName(name)) == "set" + LowerAll(name)
  {
    var u := Ucfirst(name);
    var r := SetterName(name);
    assert r == "set" + u;
    assert LowerAll(u) == LowerAll(name) by {
      if name != [] {
        assert Lower(u[0]) == Lower(name[0]);
      }
    }
    assert LowerAll(r) == "set" + LowerAll(u) by {
      forall i | 0 <= i < |r| ensures LowerAll(r)[i] == ("set" + LowerAll(u))[i] {
        if i >= 3 {
          assert r[i] == u[i - 3];
        }
      }
    }
  }

  /** `$class->hasMethod($m) && $class->getMethod($m)->isPublic()`, with PHP's case-insensitive method names. */
  predicate HasPublicMethod(methods: set<string>, m: string)
    ensures m in methods ==> HasPublicMethod(methods, m)
  {
    exists n :: n in methods && LowerAll(n) == LowerAll(m)
  }

  /** Method names that differ only in ASCII case find the same public method. */
  lemma HasPublicMethodIgnoresCase(methods: set<string>, m: string, m': string)
    requires LowerAll(m) == LowerAll(m')
    ensures HasPublicMethod(methods, m) <==> HasPublicMethod(methods, m')
  {
  }

  // ---------------------------------------------------------------------
  // parsePropertyAnnotation

  /** Doctrine `ClassMetadataInfo` association type bits. */
  const ONE_TO_ONE: bv8 := 1
  const MANY_TO_ONE: bv8 := 2
  const ONE_TO_MANY: bv8 := 4
  const MANY_TO_MANY: bv8 := 8
  const TO_ONE: bv8 := 3
  const TO_MANY: bv8 := 12

  /** Each of Doctrine's four association types is either single-valued or a collection, never both. */
  lemma AssociationTypeKinds(t: bv8)
    requires t == ONE_TO_ONE || t == MANY_TO_ONE || t == ONE_TO_MANY || t == MANY_TO_MANY
    ensures (t & TO_ONE != 0) <==> (t == ONE_TO_ONE || t == MANY_TO_ONE)
    ensures (t & TO_MANY != 0) <==> (t == ONE_TO_MANY || t == MANY_TO_MANY)
    ensures (t & TO_ONE != 0) != (t & TO_MANY != 0)
  {
  }

  /** The `$mapping` array of one property; the keys it does not set read as false or empty. */
  datatype PropertyMapping = PropertyMapping(
    isPrimitive: bool,
    isAssociation: bool,
    varName: string,
    setterName: Option<string>,
    serializedName: string,
    fieldType: string,
    nullable: bool,
    assocType: bv8,
    targetEntity: string,
    isSingleObject: bool,
    isObjectsArray: bool)

  /**
   * `parsePropertyAnnotation`: names, setter and classification of a
   * property of the class. A Doctrine field is primitive; otherwise a
   * Doctrine association is an association; otherwise neither.
   */
  function ParsePropertyAnnotation(info: ClassInfo, name: string): (m: PropertyMapping)
    ensures m.varName == name && m.serializedName == SerializedName(name)
    ensures m.setterName.Some? <==> HasPublicMethod(info.publicMethods, SetterName(name))
    ensures m.setterName.Some? ==> m.setterName.value == SetterName(name)
    ensures m.isPrimitive <==> name in info.fields
    ensures m.isAssociation <==> name !in info.fields && name in info.associations
    ensures !(m.isPrimitive && m.isAssociation)
    ensures m.isPrimitive ==> m.fieldType == info.fields[name].fieldType && m.nullable == info.fields[name].nullable
    ensures m.isAssociation ==> m.targetEntity == info.associations[name].targetEntity
    ensures m.isSingleObject <==> m.isAssociation && info.associations[name].assocType & TO_ONE != 0
    ensures m.isObjectsArray <==> m.isAssociation && info.associations[name].assocType & TO_MANY != 0
  {
    var setter := SetterName(name);
    var base := PropertyMapping(false, false, name,
                                if HasPublicMethod(info.publicMethods, setter) then Some(setter) else None,
                                SerializedName(name), "", false, 0, "", false, false);
    if name in info.fields then
      base.(isPrimitive := true, fieldType := info.fields[name].fieldType, nullable := info.fields[name].nullable)
    else if name in info.associations then
      var a := info.associations[name];
      base.(isAssociation := true, assocType := a.assocType, targetEntity := a.targetEntity,
            isSingleObject := a.assocType & TO_ONE != 0, isObjectsArray := a.assocType & TO_MANY != 0)
    else base
  }

  // ---------------------------------------------------------------------
  // getObject

  /** The entity manager's two lookups, each giving None when nothing is found. */
  datatype Store = Store(
    find: (string, Value) -> Option<Value>,
    findOneBy: (string, Value, Value) -> Option<Value>)

  /**
   * `getObject`: criteria given as an array go to `findOneBy` together with
   * the ordering, anything else is an identifier for `find`.
   */
  function DbGetObject(store: Store, cls: string, criteria: Value, orderBy: Value): (r: Option<Value>)
    ensures IsArray(criteria) ==> r == store.findOneBy(cls, criteria, orderBy)
    ensures !IsArray(criteria) ==> r == store.find(cls, criteria)
  {
    if IsArray(criteria) then store.findOneBy(cls, criteria, orderBy) else store.find(cls, criteria)
  }

  /** The ordering matters only for array criteria: a lookup by identifier ignores it. */
  lemma DbGetObjectOrderOnlyForArrays(store: Store, cls: string, criteria: Value, o1: Value, o2: Value)
    ensures !IsArray(criteria) ==> DbGetObject(store, cls, criteria, o1) == DbGetObject(store, cls, criteria, o2)
    ensures IsArray(criteria) && store.findOneBy(cls, criteria, o1) != store.findOneBy(cls, criteria, o2) ==>
      DbGetObject(store, cls, criteria, o1) != DbGetObject(store, cls, criteria, o2)
  {
  }

  /** A lookup result as the PHP value handed to a setter: null when nothing was found. */
  function OrNull(o: Option<Value>): Value
  {
    match o
    case None => VNull
    case Some(v) => v
  }

  // ---------------------------------------------------------------------
  // appendDataToObject: the values each setter receives

  /** `$value instanceof $targetEntity` (subclasses are not modelled). */
  predicate IsInstance(v: Value, cls: string)
  {
    v.VObject? && v.cls == cls
  }

  /** `is_array($value) && isset($value['id'])`. */
  predicate HasId(v: Value)
  {
    v.VMap? && "id" in v.entries && v.entries["id"] != VNull
  }

  /** The setter calls of a Doctrine field: null first when nullable, then the fixed date or the value. */
  function PrimitiveCalls(m: PropertyMapping, value: Value, fixDate: Value -> Option<Value>): (r: seq<Value>)
    ensures |r| <= 2 && (|r| == 2 ==> r[0] == VNull)
    ensures m.fieldType != "datetime" ==> r != [] && r[|r| - 1] == value
    ensures m.fieldType == "datetime" && fixDate(value).Some? ==> r != [] && r[|r| - 1] == fixDate(value).value
    ensures m.fieldType == "datetime" && fixDate(value).None? ==> r == (if value == VNull && m.nullable then [VNull] else [])
  {
    (if value == VNull && m.nullable then [VNull] else []) +
    (if m.fieldType == "datetime" then
       match fixDate(value)
       case None => []
       case Some(d) => [d]
     else [value])
  }

  /**
   * The setter calls of a single-valued association: null clears it; an
   * integer is looked up; an instance of the target is set as is; an array
   * with an `id` is looked up by that id.
   */
  function SingleObjectCalls(m: PropertyMapping, value: Value, store: Store): (r: seq<Value>)
    ensures value == VNull ==> r == [VNull]
    ensures value.VInt? ==> r == [OrNull(store.find(m.targetEntity, value))]
    ensures IsInstance(value, m.targetEntity) ==> r == [value]
    ensures HasId(value) ==> r == [OrNull(DbGetObject(store, m.targetEntity, value.entries["id"], VNull))]
    ensures !(value == VNull || value.VInt? || IsInstance(value, m.targetEntity) || HasId(value)) ==> r == []
  {
    (if value == VNull then [VNull] else []) +
    (if value.VInt? then [OrNull(DbGetObject(store, m.targetEntity, value, VNull))] else []) +
    (if IsInstance(value, m.targetEntity) then [value]
     else if HasId(value) then [OrNull(DbGetObject(store, m.targetEntity, value.entries["id"], VNull))]
     else [])
  }

  /** Every value passed to the property's setter, in order. */
  function SetterCalls(m: PropertyMapping, value: Value, fixDate: Value -> Option<Value>, store: Store): seq<Value>
  {
    if m.isPrimitive then PrimitiveCalls(m, value, fixDate)
    else if m.isAssociation && m.isSingleObject then SingleObjectCalls(m, value, store)
    else []
  }

  /**
   * The setter calls for one property of the class: none when its serialized
   * name is excluded, absent from the data, or it has no public setter.
   */
  function FieldCalls(info: ClassInfo, prop: string, data: map<string, Value>, excluded: seq<string>,
                      fixDate: Value -> Option<Value>, store: Store): seq<Value>
  {
    var m := ParsePropertyAnnotation(info, prop);
    if m.serializedName in excluded || m.serializedName !in data || m.setterName.None? then []
    else SetterCalls(m, data[m.serializedName], fixDate, store)
  }

  /** The property after a run of setter calls, each of which assigns it: the last value wins. */
  function SetAll(fields: map<string, Value>, prop: string, calls: seq<Value>): map<string, Value>
  {
    if calls == [] then fields else fields[prop := calls[|calls| - 1]]
  }

  /** The properties after visiting `props` in order, the setter of each receiving `callsOf` of it. */
  function ApplyCalls(fields: map<string, Value>, props: seq<string>, callsOf: string -> seq<Value>): map<string, Value>
    decreases |props|
  {
    if props == [] then fields
    else
      var n := |props| - 1;
      SetAll(ApplyCalls(fields, props[..n], callsOf), props[n], callsOf(props[n]))
  }

  /**
   * A visited property ends with the last value its setter received; one
   * whose setter was not called, and every key that is not visited, keeps
   * its old value.
   */
  lemma {:induction false} ApplyCallsLookup(fields: map<string, Value>, props: seq<string>, callsOf: string -> seq<Value>, k: string)
    ensures var r := ApplyCalls(fields, props, callsOf);
      var c := callsOf(k);
      (k in props && c != [] ==> k in r && r[k] == c[|c| - 1]) &&
      (!(k in props && c != []) ==> (k in r <==> k in fields) && (k in fields ==> r[k] == fields[k]))
    decreases |props|
  {
    if props != [] {
      var n := |props| - 1;
      ApplyCallsLookup(fields, props[..n], callsOf, k);
      assert props == props[..n] + [props[n]];
    }
  }

  /** The setter calls of every property, as one function of the property name. */
  function CallsOf(info: ClassInfo, data: map<string, Value>, excluded: seq<string>,
                   fixDate: Value -> Option<Value>, store: Store): string -> seq<Value>
  {
    p => FieldCalls(info, p, data, excluded, fixDate, store)
  }

  /** Visiting one more property applies its setter calls to the properties so far. */
  lemma ApplyCallsStep(fields: map<string, Value>, props: seq<string>, i: nat, callsOf: string -> seq<Value>)
    requires i < |props|
    ensures ApplyCalls(fields, props[..i + 1], callsOf) ==
      SetAll(ApplyCalls(fields, props[..i], callsOf), props[i], callsOf(props[i]))
  {
    assert props[..i + 1][..i] == props[..i];
  }

  /** The calls `CallsOf` gives a property: none when it is skipped, otherwise its setter calls. */
  lemma FieldCallsOf(info: ClassInfo, prop: string, data: map<string, Value>, excluded: seq<string>,
                     fixDate: Value -> Option<Value>, store: Store)
    ensures var m := ParsePropertyAnnotation(info, prop);
      CallsOf(info, data, excluded, fixDate, store)(prop) ==
        if m.serializedName !in excluded && m.serializedName in data && m.setterName.Some?
        then SetterCalls(m, data[m.serializedName], fixDate, store)
        else []
  {
  }

  /** The entity's properties after `appendDataToObject` has visited `props` in order. */
  function Hydrate(fields: map<string, Value>, info: ClassInfo, props: seq<string>, data: map<string, Value>,
                   excluded: seq<string>, fixDate: Value -> Option<Value>, store: Store): map<string, Value>
  {
    ApplyCalls(fields, props, CallsOf(info, data, excluded, fixDate, store))
  }

  /** `$config['excluded']`, by default `['id', 'date_create']`. */
  function Excluded(config: map<string, seq<string>>): seq<string>
  {
    GetKeyIfExists(config, "excluded", ["id", "date_create"])
  }

  // ---------------------------------------------------------------------
  // What appendDataToObject does to each property

  /**
   * A property ends with the last value its setter received; a property
   * whose setter was not called, and every key that is not a property,
   * keeps its old value.
   */
  lemma HydrateLookup(fields: map<string, Value>, info: ClassInfo, props: seq<string>,
                      data: map<string, Value>, excluded: seq<string>,
                      fixDate: Value -> Option<Value>, store: Store, k: string)
    ensures var r := Hydrate(fields, info, props, data, excluded, fixDate, store);
      var c := FieldCalls(info, k, data, excluded, fixDate, store);
      (k in props && c != [] ==> k in r && r[k] == c[|c| - 1]) &&
      (!(k in props && c != []) ==> (k in r <==> k in fields) && (k in fields ==> r[k] == fields[k]))
  {
    var callsOf := CallsOf(info, data, excluded, fixDate, store);
    ApplyCallsLookup(fields, props, callsOf, k);
    assert callsOf(k) == FieldCalls(info, k, data, excluded, fixDate, store);
  }

  /** Copying the same data twice changes nothing the first copy did not. */
  lemma HydrateIdempotent(fields: map<string, Value>, info: ClassInfo, props: seq<string>, data: map<string, Value>,
                          excluded: seq<string>, fixDate: Value -> Option<Value>, store: Store)
    ensures var once := Hydrate(fields, info, props, data, excluded, fixDate, store);
      Hydrate(once, info, props, data, excluded, fixDate, store) == once
  {
    var once := Hydrate(fields, info, props, data, excluded, fixDate, store);
    var twice := Hydrate(once, info, props, data, excluded, fixDate, store);
    forall k | true
      ensures (k in twice <==> k in once) && (k in twice ==> twice[k] == once[k])
    {
      HydrateLookup(fields, info, props, data, excluded, fixDate, store, k);
      HydrateLookup(once, info, props, data, excluded, fixDate, store, k);
    }
  }

  /** A property whose serialized name is excluded keeps its value. */
  lemma ExcludedFieldUnchanged(fields: map<string, Value>, info: ClassInfo, props: seq<string>,
                               data: map<string, Value>, excluded: seq<string>,
                               fixDate: Value -> Option<Value>, store: Store, k: string)
    requires SerializedName(k) in excluded && k in fields
    ensures var r := Hydrate(fields, info, props, data, excluded, fixDate, store);
      k in r && r[k] == fields[k]
  {
    HydrateLookup(fields, info, props, data, excluded, fixDate, store, k);
  }

  /** Without an `excluded` entry in the config, `id` and `dateCreate` are never written. */
  lemma DefaultExcludedProtectsIdAndDateCreate(fields: map<string, Value>, info: ClassInfo, props: seq<string>,
                                               data: map<string, Value>, config: map<string, seq<string>>,
                                               fixDate: Value -> Option<Value>, store: Store)
    requires "excluded" !in config
    ensures var r := Hydrate(fields, info, props, data, Excluded(config), fixDate, store);
      ("id" in fields ==> "id" in r && r["id"] == fields["id"]) &&
      ("dateCreate" in fields ==> "dateCreate" in r && r["dateCreate"] == fields["dateCreate"])
  {
    DefaultExcludedNames();
    if "id" in fields {
      ExcludedFieldUnchanged(fields, info, props, data, Excluded(config), fixDate, store, "id");
    }
    if "dateCreate" in fields {
      ExcludedFieldUnchanged(fields, info, props, data, Excluded(config), fixDate, store, "dateCreate");
    }
  }

  /** The properties behind the default excluded names: `id` and `dateCreate`. */
  lemma DefaultExcludedNames()
    ensures SerializedName("id") == "id"
    ensures SerializedName("dateCreate") == "date_create"
  {
    assert NoUpper("id");
    assert NoUpper("date") && NoUpper("reate");
    SerializedNameOneHump("date", 'C', "reate");
    assert "dateCreate" == "date" + ['C'] + "reate";
    assert "date" + ['_', 'c'] + "reate" == "date_create";
  }

  /** One capital between two lower-case runs becomes an underscore and its lower case. */
  lemma SerializedNameOneHump(a: string, c: char, b: string)
    requires NoUpper(a) && IsUpper(c) && NoUpper(b)
    ensures SerializedName(a + [c] + b) == a + ['_', Lower(c)] + b
  {
    var t := [c] + b;
    assert a + [c] + b == a + t;
    SerializedNameConcat(a, t);
    SerializedNameCons(c, b);
    SerializedNameShape(a);
    SerializedNameShape(b);
    assert a + (['_', Lower(c)] + b) == a + ['_', Lower(c)] + b;
  }

  /** Serializing a string starting with `c` serializes `c` and then the rest. */
  lemma SerializedNameCons(c: char, b: string)
    ensures SerializedName([c] + b) == (if IsUpper(c) then ['_', Lower(c)] else [c]) + SerializedName(b)
  {
    assert ([c] + b)[1..] == b;
  }

  /** The serialized name of a concatenation is the concatenation of the serialized names. */
  lemma {:induction false} SerializedNameConcat(a: string, b: string)
    ensures SerializedName(a + b) == SerializedName(a) + SerializedName(b)
    decreases |a|
  {
    if a != [] {
      SerializedNameConcat(a[1..], b);
      assert (a + b)[0] == a[0] && (a + b)[1..] == a[1..] + b;
    } else {
      assert a + b == b;
    }
  }

  /** A property absent from the data, or without a public setter, keeps its value. */
  lemma UnsetFieldUnchanged(fields: map<string, Value>, info: ClassInfo, props: seq<string>,
                            data: map<string, Value>, excluded: seq<string>,
                            fixDate: Value -> Option<Value>, store: Store, k: string)
    requires SerializedName(k) !in data || !HasPublicMethod(info.publicMethods, SetterName(k))
    requires k in fields
    ensures var r := Hydrate(fields, info, props, data, excluded, fixDate, store);
      k in r && r[k] == fields[k]
  {
    HydrateLookup(fields, info, props, data, excluded, fixDate, store, k);
  }

  /** A property that is neither a Doctrine field nor a single-valued association keeps its value. */
  lemma UnmappedOrToManyUnchanged(fields: map<string, Value>, info: ClassInfo, props: seq<string>,
                                  data: map<string, Value>, excluded: seq<string>,
                                  fixDate: Value -> Option<Value>, store: Store, k: string)
    requires k !in info.fields
    requires k !in info.associations || info.associations[k].assocType & TO_ONE == 0
    requires k in fields
    ensures var r := Hydrate(fields, info, props, data, excluded, fixDate, store);
      k in r && r[k] == fields[k]
  {
    HydrateLookup(fields, info, props, data, excluded, fixDate, store, k);
  }

  /** The conditions under which `appendDataToObject` calls a property's setter with the input value. */
  predicate Writable(info: ClassInfo, k: string, data: map<string, Value>, excluded: seq<string>)
  {
    SerializedName(k) !in excluded && SerializedName(k) in data &&
    HasPublicMethod(info.publicMethods, SetterName(k))
  }

  /** A writable non-date Doctrine field ends with exactly the input value, null included. */
  lemma PrimitiveFieldTakesValue(fields: map<string, Value>, info: ClassInfo, props: seq<string>,
                                 data: map<string, Value>, excluded: seq<string>,
                                 fixDate: Value -> Option<Value>, store: Store, k: string)
    requires k in props && k in info.fields && info.fields[k].fieldType != "datetime"
    requires Writable(info, k, data, excluded)
    ensures var r := Hydrate(fields, info, props, data, excluded, fixDate, store);
      k in r && r[k] == data[SerializedName(k)]
  {
    HydrateLookup(fields, info, props, data, excluded, fixDate, store, k);
  }

  /**
   * A writable date field takes the `fixDate` result when there is one;
   * otherwise a null input clears a nullable field, and anything else
   * leaves it as it was.
   */
  lemma DatetimeFieldRule(fields: map<string, Value>, info: ClassInfo, props: seq<string>,
                          data: map<string, Value>, excluded: seq<string>,
                          fixDate: Value -> Option<Value>, store: Store, k: string)
    requires k in props && k in info.fields && info.fields[k].fieldType == "datetime"
    requires Writable(info, k, data, excluded)
    ensures var r := Hydrate(fields, info, props, data, excluded, fixDate, store);
      var v := data[SerializedName(k)];
      (fixDate(v).Some? ==> k in r && r[k] == fixDate(v).value) &&
      (fixDate(v).None? && v == VNull && info.fields[k].nullable ==> k in r && r[k] == VNull) &&
      (fixDate(v).None? && !(v == VNull && info.fields[k].nullable) ==>
         (k in r <==> k in fields) && (k in fields ==> r[k] == fields[k]))
  {
    HydrateLookup(fields, info, props, data, excluded, fixDate, store, k);
  }

  /**
   * A writable single-valued association: null clears it; an integer or an
   * array with an `id` is replaced by the entity found under that id (null
   * when none is); an instance of the target entity is stored as is; any
   * other input leaves it unchanged.
   */
  lemma SingleAssociationRule(fields: map<string, Value>, info: ClassInfo, props: seq<string>,
                              data: map<string, Value>, excluded: seq<string>,
                              fixDate: Value -> Option<Value>, store: Store, k: string)
    requires k in props && k !in info.fields && k in info.associations
    requires info.associations[k].assocType & TO_ONE != 0
    requires Writable(info, k, data, excluded)
    ensures var r := Hydrate(fields, info, props, data, excluded, fixDate, store);
      var v := data[SerializedName(k)];
      var target := info.associations[k].targetEntity;
      (v == VNull ==> k in r && r[k] == VNull) &&
      (v.VInt? ==> k in r && r[k] == OrNull(store.find(target, v))) &&
      (IsInstance(v, target) ==> k in r && r[k] == v) &&
      (HasId(v) ==> k in r && r[k] == OrNull(DbGetObject(store, target, v.entries["id"], VNull))) &&
      (!(v == VNull || v.VInt? || IsInstance(v, target) || HasId(v)) ==>
         (k in r <==> k in fields) && (k in fields ==> r[k] == fields[k]))
  {
    HydrateLookup(fields, info, props, data, excluded, fixDate, store, k);
  }

  // ---------------------------------------------------------------------
  // The entity and the imperative copy

  /** An entity object; its setters assign the property they are named after. */
  class Entity {
    const cls: string
    var fields: map<string, Value>

    /** `new $class()`, with the property values the class declares. */
    constructor (cls: string, fields: map<string, Value>)
      ensures this.cls == cls && this.fields == fields
    {
      this.cls := cls;
      this.fields := fields;
    }

    /** A call of the property's setter. */
    method Set(prop: string, v: Value)
      modifies this
      ensures fields == old(fields)[prop := v]
    {
      fields := fields[prop := v];
    }
  }

  /** The branch of `appendDataToObject` that calls one property's setter with the input value. */
  method CallSetter(obj: Entity, m: PropertyMapping, value: Value, fixDate: Value -> Option<Value>, store: Store)
    modifies obj
    ensures obj.fields == SetAll(old(obj.fields), m.varName, SetterCalls(m, value, fixDate, store))
  {
    ghost var f0 := obj.fields;
    if m.isPrimitive {
      if value == VNull && m.nullable {
        obj.Set(m.varName, VNull);
      }
      if m.fieldType == "datetime" {
        var fixedDate := fixDate(value);
        if fixedDate.Some? {
          obj.Set(m.varName, fixedDate.value);
        }
      } else {
        obj.Set(m.varName, value);
      }
    } else if m.isAssociation {
      if value == VNull && m.isSingleObject {
        obj.Set(m.varName, VNull);
      }
      if m.isSingleObject {
        ghost var calls: seq<Value> := if value == VNull then [VNull] else [];
        assert obj.fields == SetAll(f0, m.varName, calls);
        if value.VInt? {
          var subObject := DbGetObject(store, m.targetEntity, value, VNull);
          obj.Set(m.varName, OrNull(subObject));
          calls := calls + [OrNull(subObject)];
        }
        assert obj.fields == SetAll(f0, m.varName, calls);
        if IsInstance(value, m.targetEntity) {
          obj.Set(m.varName, value);
          calls := calls + [value];
        } else if HasId(value) {
          var subObject := DbGetObject(store, m.targetEntity, value.entries["id"], VNull);
          obj.Set(m.varName, OrNull(subObject));
          calls := calls + [OrNull(subObject)];
        }
        assert calls == SingleObjectCalls(m, value, store);
      }
    }
  }

  /**
   * `appendDataToObject` on an existing entity: every property of its class,
   * in declaration order, through the rules above. Returns false for the
   * exception an unknown class raises, before anything changes.
   */
  method AppendDataToObject(obj: Entity, data: map<string, Value>, config: map<string, seq<string>>,
                            schema: Schema, fixDate: Value -> Option<Value>, store: Store)
    returns (ok: bool)
    modifies obj
    ensures ok <==> obj.cls in schema
    ensures !ok ==> obj.fields == old(obj.fields)
    ensures ok ==>
      obj.fields == Hydrate(old(obj.fields), schema[obj.cls], schema[obj.cls].properties, data, Excluded(config), fixDate, store)
  {
    var excluded := GetKeyIfExists(config, "excluded", ["id", "date_create"]);
    if obj.cls !in schema {
      return false;
    }
    var info := schema[obj.cls];
    var properties := info.properties;
    ghost var f0 := obj.fields;
    ghost var callsOf := CallsOf(info, data, excluded, fixDate, store);
    var i := 0;
    while i < |properties|
      invariant 0 <= i <= |properties|
      invariant obj.fields == ApplyCalls(f0, properties[..i], callsOf)
    {
      var fieldMetaData := ParsePropertyAnnotation(info, properties[i]);
      var serializedName := fieldMetaData.serializedName;
      ApplyCallsStep(f0, properties, i, callsOf);
      FieldCallsOf(info, properties[i], data, excluded, fixDate, store);
      if serializedName !in excluded && serializedName in data && fieldMetaData.setterName.Some? {
        CallSetter(obj, fieldMetaData, data[serializedName], fixDate, store);
      }
      i := i + 1;
    }
    assert properties[..i] == properties;
    assert obj.fields == Hydrate(f0, info, properties, data, excluded, fixDate, store);
    ok := true;
  }
}
