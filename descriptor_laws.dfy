/** Properties of the descriptor builders of src/index.ts: how `required` relates to
    `properties`, the defaulting rules, how the fixed descriptors relate to one
    another, and that the builders keep values well formed. */
module DescriptorLaws {
  import opened Sequences
  import opened Json
  import opened Descriptors

  /** Without `optionalProps`, every property is required, in key order. */
  lemma StrictObjectAllRequired(properties: Fields)
    ensures RequiredOf(StrictObject(properties, None)) == Some(Keys(properties))
  {
    StringListRoundTrip(Keys(properties));
  }

  /** Listing as optional only names that are not properties (the empty list among
      them) gives the same descriptor as leaving the option out. */
  lemma {:induction false} OptionalNonKeysIgnored(properties: Fields, optional: seq<string>)
    requires forall k :: k in optional ==> k !in Keys(properties)
    ensures StrictObject(properties, Some(optional)) == StrictObject(properties, None)
  {
    FilterOutNothing(Keys(properties), optional);
  }

  /** `strictObject(p, {optionalProps: []})` is `strictObject(p)`. */
  lemma EmptyOptionalPropsSameAsOmitted(properties: Fields)
    ensures StrictObject(properties, Some([])) == StrictObject(properties, None)
  {
    OptionalNonKeysIgnored(properties, []);
  }

  /** When the keys of `properties` are distinct, `required` is the only list that
      keeps their order and holds exactly the keys not listed as optional. */
  lemma StrictObjectRequiredUnique(properties: Fields, optionalProps: Option<seq<string>>, r: seq<string>)
    requires DistinctKeys(properties)
    requires IsSubsequence(r, Keys(properties))
    requires forall k :: k in r <==> k in Keys(properties) && !IsOptional(k, optionalProps)
    ensures RequiredOf(StrictObject(properties, optionalProps)) == Some(r)
  {
    var drop := if optionalProps.Some? then optionalProps.value else [];
    FilterOutUnique(Keys(properties), drop, r);
    FilterOutNothing(Keys(properties), []);
    StringListRoundTrip(r);
  }

  /** `objectWithRequiredProps(p)` is `strictObject(p)` with the value of
      `additionalProperties` changed, in place, to `true`. */
  lemma ObjectWithRequiredPropsIsLenientStrictObject(properties: Fields)
    ensures ObjectWithRequiredProps(properties).fields
         == StrictObject(properties, None).fields[2 := ("additionalProperties", JBool(true))]
  {
  }

  lemma TwoKeys(k1: string, v1: Json, k2: string, v2: Json)
    ensures Keys([(k1, v1), (k2, v2)]) == [k1, k2]
  {
  }

  /** `objectWithRequiredProps` takes no options: for the properties `{a, b}` it
      requires both, where `strictObject` with `optionalProps: ["b"]` requires only `a`. */
  lemma OptionalPropsOnlyForStrictObject(a: Json, b: Json)
    ensures RequiredOf(StrictObject([("a", a), ("b", b)], Some(["b"]))) == Some(["a"])
    ensures RequiredOf(ObjectWithRequiredProps([("a", a), ("b", b)])) == Some(["a", "b"])
  {
    var p := [("a", a), ("b", b)];
    assert Keys(p) == ["a", "b"];
    assert FilterOut(["a", "b"], ["b"]) == ["a"] by {
      assert ["a", "b"][1..] == ["b"];
    }
    StringListRoundTrip(["a"]);
  }

  /** As written, the descriptor built for the optional-properties test of
      `objectWithRequiredProps` requires `b`, which the test's object `{a: "1", c: "3"}`
      does not have. */
  lemma OptionalPropsTestObjectMissesRequired()
    ensures RequiredOf(ObjectWithRequiredProps([("a", Exactly(JStr("1"))), ("b", Exactly(JStr("2")))])) == Some(["a", "b"])
    ensures Keys([("a", JStr("1")), ("c", JStr("3"))]) == ["a", "c"]
  {
    TwoKeys("a", Exactly(JStr("1")), "b", Exactly(JStr("2")));
    TwoKeys("a", JStr("1"), "c", JStr("3"));
  }

  /** With the option honoured, that descriptor requires only `a`, which the test's
      object has. */
  lemma OptionalPropsTestObjectHasRequired()
    ensures RequiredOf(ObjectWithRequiredPropsAndOptions([("a", Exactly(JStr("1"))), ("b", Exactly(JStr("2")))], Some(["b"])))
         == Some(["a"])
    ensures "a" in Keys([("a", JStr("1")), ("c", JStr("3"))])
  {
    var p := [("a", Exactly(JStr("1"))), ("b", Exactly(JStr("2")))];
    assert Keys(p) == ["a", "b"];
    assert FilterOut(["a", "b"], ["b"]) == ["a"] by {
      assert ["a", "b"][1..] == ["b"];
    }
    assert Keys([("a", JStr("1")), ("c", JStr("3"))]) == ["a", "c"];
  }

  /** Without options the amended builder is `objectWithRequiredProps`. */
  lemma ObjectWithOptionsExtendsObjectWithRequiredProps(properties: Fields)
    ensures ObjectWithRequiredPropsAndOptions(properties, None) == ObjectWithRequiredProps(properties)
  {
  }

  /** `minItems` is 1 exactly when the option is absent or is itself 1. */
  lemma ArrayOfItemsDefault(itemSchema: Json, minItems: Option<int>)
    ensures Get(ArrayOfItems(itemSchema, minItems), "minItems") == Some(JInt(1))
        <==> minItems.None? || minItems == Some(1)
  {
  }

  /** An explicit `minItems: 0` is kept, so the empty array is allowed; the default is
      not 0, so the empty array is not. */
  lemma ArrayOfItemsZeroKept(itemSchema: Json)
    ensures Get(ArrayOfItems(itemSchema, Some(0)), "minItems") == Some(JInt(0))
    ensures Get(ArrayOfItems(itemSchema, None), "minItems") != Some(JInt(0))
  {
  }

  /** The string a `stringTypeExact` descriptor is built from can be read back from
      its pattern. */
  lemma StringTypeExactRoundTrip(expStr: string)
    ensures ExactStringOf(StringTypeExact(expStr)) == Some(expStr)
  {
    var p := ['^'] + expStr + ['$'];
    assert p[1..|p| - 1] == expStr;
  }

  /** Different strings give different `stringTypeExact` descriptors. */
  lemma StringTypeExactInjective(s: string, t: string)
    requires StringTypeExact(s) == StringTypeExact(t)
    ensures s == t
  {
    StringTypeExactRoundTrip(s);
    StringTypeExactRoundTrip(t);
  }

  /** Adding a new key to a one-field object appends it. */
  lemma PutAfterOne(k0: string, v0: Json, k: string, v: Json)
    requires k0 != k
    ensures Put([(k0, v0)], k, v) == [(k0, v0), (k, v)]
  {
    assert [(k0, v0)][1..] == [];
  }

  /** Adding a new key to a two-field object appends it. */
  lemma PutAfterTwo(k0: string, v0: Json, k1: string, v1: Json, k: string, v: Json)
    requires k0 != k && k1 != k
    ensures Put([(k0, v0), (k1, v1)], k, v) == [(k0, v0), (k1, v1), (k, v)]
  {
    assert [(k0, v0), (k1, v1)][1..] == [(k1, v1)];
    PutAfterOne(k1, v1, k, v);
  }

  /** `stringTypeCanBeEmpty` is `stringType` without its length floor. */
  lemma StringTypeCanBeEmptyDropsMinLength()
    ensures StringTypeCanBeEmpty == JObj(Delete(StringType.fields, "minLength"))
  {
    assert StringType.fields == [("type", JStr("string"))] + [("minLength", JInt(1))];
    DeleteLast([("type", JStr("string"))], "minLength", JInt(1));
  }

  /** `stringTypeMatching(regex)` is `stringType` with the pattern added, and `urlType`
      is that for the URL pattern. */
  lemma StringTypeMatchingAddsPattern(regex: string)
    ensures StringTypeMatching(regex) == JObj(Put(StringType.fields, "pattern", JStr(regex)))
    ensures Get(UrlType, "pattern") == Some(JStr(UrlPattern)) && Get(UrlType, "minLength") == Some(JInt(1))
  {
    PutAfterTwo("type", JStr("string"), "minLength", JInt(1), "pattern", JStr(regex));
  }

  /** `stringTypeExact(s)` is `stringTypeCanBeEmpty` with the anchored pattern added. */
  lemma StringTypeExactAddsAnchoredPattern(expStr: string)
    ensures StringTypeExact(expStr) == JObj(Put(StringTypeCanBeEmpty.fields, "pattern", JStr("^" + expStr + "$")))
  {
    PutAfterOne("type", JStr("string"), "pattern", JStr("^" + expStr + "$"));
  }

  /** `dateTime`, `uuidType` and `stringTypePath` are `stringTypeCanBeEmpty` with one
      field added: a format, a format, a pattern. */
  lemma FormattedStringsAddOneField()
    ensures DateTime == JObj(Put(StringTypeCanBeEmpty.fields, "format", JStr("date-time")))
    ensures UuidType == JObj(Put(StringTypeCanBeEmpty.fields, "format", JStr("uuid")))
    ensures StringTypePath == JObj(Put(StringTypeCanBeEmpty.fields, "pattern", JStr("^(.*)/(.*)$")))
  {
    PutAfterOne("type", JStr("string"), "format", JStr("date-time"));
    PutAfterOne("type", JStr("string"), "format", JStr("uuid"));
    PutAfterOne("type", JStr("string"), "pattern", JStr("^(.*)/(.*)$"));
  }

  /** `stringTypeOrNull` is `stringType` with its `type` replaced, in place, by the list
      of the two kinds. */
  lemma StringTypeOrNullWidensType()
    ensures StringTypeOrNull == JObj(Put(StringType.fields, "type", JArr([JStr("string"), JStr("null")])))
  {
  }

  /** The number descriptors with a bound are `numberType` plus that bound. */
  lemma NumberBoundsAddOneField(bound: int)
    ensures NumberTypeGreaterThan(bound) == JObj(Put(NumberType.fields, "minimum", JInt(bound)))
    ensures NumberTypeLessThan(bound) == JObj(Put(NumberType.fields, "maximum", JInt(bound)))
  {
    PutAfterOne("type", JStr("number"), "minimum", JInt(bound));
    PutAfterOne("type", JStr("number"), "maximum", JInt(bound));
  }

  /** `arrayTypeOfLength(n)` is `arrayType` plus both length bounds set to `n`. */
  lemma ArrayTypeOfLengthAddsBounds(length: int)
    ensures ArrayTypeOfLength(length)
         == JObj(Put(Put(ArrayType.fields, "minItems", JInt(length)), "maxItems", JInt(length)))
  {
    PutAfterOne("type", JStr("array"), "minItems", JInt(length));
    PutAfterTwo("type", JStr("array"), "minItems", JInt(length), "maxItems", JInt(length));
  }

  /** `arrayOfObjectsType` is `arrayType` with bare objects as items. */
  lemma ArrayOfObjectsTypeAddsItems()
    ensures ArrayOfObjectsType == JObj(Put(ArrayType.fields, "items", ObjectType))
  {
    PutAfterOne("type", JStr("array"), "items", ObjectType);
  }

  /** `arrayOfItems` is `arrayType` with the items and then a `minItems` added. */
  lemma ArrayOfItemsAddsItems(item: Json, minItems: int)
    ensures ArrayOfItems(item, Some(minItems))
         == JObj(Put(Put(ArrayType.fields, "items", item), "minItems", JInt(minItems)))
  {
    PutAfterOne("type", JStr("array"), "items", item);
    PutAfterTwo("type", JStr("array"), "items", item, "minItems", JInt(minItems));
  }

  /** `exactly(v)` is `oneOf([v])`. */
  lemma ExactlyIsOneOfSingleton(v: Json)
    ensures Exactly(v) == OneOf([v])
  {
  }

  /** The single-field descriptors: a `type` and nothing else. */
  lemma PlainDescriptorsHaveOnlyType()
    ensures Keys(ObjectType.fields) == ["type"] && Get(ObjectType, "type") == Some(JStr("object"))
    ensures Keys(StringTypeCanBeEmpty.fields) == ["type"] && Get(StringTypeCanBeEmpty, "type") == Some(JStr("string"))
    ensures Keys(NumberType.fields) == ["type"] && Get(NumberType, "type") == Some(JStr("number"))
    ensures Keys(NullType.fields) == ["type"] && Get(NullType, "type") == Some(JStr("null"))
    ensures Keys(BooleanType.fields) == ["type"] && Get(BooleanType, "type") == Some(JStr("boolean"))
    ensures Keys(ArrayType.fields) == ["type"] && Get(ArrayType, "type") == Some(JStr("array"))
  {
  }

  /** `stringType` is a string of length at least 1. */
  lemma StringTypeFields()
    ensures Keys(StringType.fields) == ["type", "minLength"]
    ensures Get(StringType, "type") == Some(JStr("string")) && Get(StringType, "minLength") == Some(JInt(1))
  {
  }

  lemma TwoKeysWellFormed(k1: string, v1: Json, k2: string, v2: Json)
    requires k1 != k2 && WellFormed(v1) && WellFormed(v2)
    ensures WellFormed(JObj([(k1, v1), (k2, v2)]))
  {
    assert Keys([(k1, v1), (k2, v2)]) == [k1, k2];
  }

  lemma ThreeKeysWellFormed(k1: string, v1: Json, k2: string, v2: Json, k3: string, v3: Json)
    requires k1 != k2 && k1 != k3 && k2 != k3 && WellFormed(v1) && WellFormed(v2) && WellFormed(v3)
    ensures WellFormed(JObj([(k1, v1), (k2, v2), (k3, v3)]))
  {
    assert Keys([(k1, v1), (k2, v2), (k3, v3)]) == [k1, k2, k3];
  }

  lemma FourKeysWellFormed(k1: string, v1: Json, k2: string, v2: Json, k3: string, v3: Json, k4: string, v4: Json)
    requires Distinct([k1, k2, k3, k4])
    requires WellFormed(v1) && WellFormed(v2) && WellFormed(v3) && WellFormed(v4)
    ensures WellFormed(JObj([(k1, v1), (k2, v2), (k3, v3), (k4, v4)]))
  {
    assert Keys([(k1, v1), (k2, v2), (k3, v3), (k4, v4)]) == [k1, k2, k3, k4];
  }

  /** `strictObject` keeps well-formed properties well formed. */
  lemma StrictObjectWellFormed(properties: Fields, optionalProps: Option<seq<string>>)
    requires WellFormed(JObj(properties))
    ensures WellFormed(StrictObject(properties, optionalProps))
  {
    FourKeysDistinct("type", "properties", "additionalProperties", "required");
    var required := RequiredKeys(properties, optionalProps);
    StringListWellFormed(required);
    FourKeysWellFormed("type", JStr("object"), "properties", JObj(properties),
                       "additionalProperties", JBool(false), "required", StringList(required));
  }

  /** `objectWithRequiredProps` keeps well-formed properties well formed. */
  lemma ObjectWithRequiredPropsWellFormed(properties: Fields)
    requires WellFormed(JObj(properties))
    ensures WellFormed(ObjectWithRequiredProps(properties))
  {
    FourKeysDistinct("type", "properties", "additionalProperties", "required");
    StringListWellFormed(Keys(properties));
    FourKeysWellFormed("type", JStr("object"), "properties", JObj(properties),
                       "additionalProperties", JBool(true), "required", StringList(Keys(properties)));
  }

  /** `arrayOfItems` keeps a well-formed item descriptor well formed. */
  lemma ArrayOfItemsWellFormed(item: Json, minItems: Option<int>)
    requires WellFormed(item)
    ensures WellFormed(ArrayOfItems(item, minItems))
  {
    var m := if minItems.Some? then minItems.value else 1;
    ThreeKeysWellFormed("type", JStr("array"), "items", item, "minItems", JInt(m));
  }

  /** The string builders always give well-formed descriptors. */
  lemma StringBuildersWellFormed(s: string)
    ensures WellFormed(StringTypeMatching(s)) && WellFormed(StringTypeExact(s))
  {
    ThreeKeysWellFormed("type", JStr("string"), "minLength", JInt(1), "pattern", JStr(s));
    TwoKeysWellFormed("type", JStr("string"), "pattern", JStr("^" + s + "$"));
  }

  /** The number and length builders always give well-formed descriptors. */
  lemma BoundBuildersWellFormed(n: int)
    ensures WellFormed(NumberTypeGreaterThan(n)) && WellFormed(NumberTypeLessThan(n))
    ensures WellFormed(ArrayTypeOfLength(n))
  {
    TwoKeysWellFormed("type", JStr("number"), "minimum", JInt(n));
    TwoKeysWellFormed("type", JStr("number"), "maximum", JInt(n));
    ThreeKeysWellFormed("type", JStr("array"), "minItems", JInt(n), "maxItems", JInt(n));
  }

  /** `exactly` and `oneOf` keep well-formed values well formed. */
  lemma EnumBuildersWellFormed(v: Json, values: seq<Json>)
    requires WellFormed(v)
    requires forall i :: 0 <= i < |values| ==> WellFormed(values[i])
    ensures WellFormed(Exactly(v)) && WellFormed(OneOf(values))
  {
    assert Keys([("enum", JArr([v]))]) == ["enum"];
    assert Keys([("enum", JArr(values))]) == ["enum"];
  }

  /** The fixed plain and formatted string descriptors are well formed. */
  lemma FixedStringDescriptorsWellFormed()
    ensures WellFormed(StringType) && WellFormed(StringTypeCanBeEmpty)
    ensures WellFormed(DateTime) && WellFormed(UuidType)
  {
  }

  /** `urlType` and `stringTypePath` are well formed. */
  lemma FixedPatternDescriptorsWellFormed()
    ensures WellFormed(UrlType) && WellFormed(StringTypePath)
  {
    ThreeKeysWellFormed("type", JStr("string"), "minLength", JInt(1), "pattern", JStr(UrlPattern));
  }

  /** `stringTypeOrNull`, whose `type` is a list, is well formed. */
  lemma StringTypeOrNullWellFormed()
    ensures WellFormed(StringTypeOrNull)
  {
  }

  /** The other fixed descriptors are well formed. */
  lemma FixedPlainDescriptorsWellFormed()
    ensures WellFormed(ObjectType) && WellFormed(NumberType) && WellFormed(NullType)
    ensures WellFormed(BooleanType) && WellFormed(ArrayType) && WellFormed(ArrayOfObjectsType)
  {
    TwoKeysWellFormed("type", JStr("array"), "items", ObjectType);
  }
}
