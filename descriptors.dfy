/** The descriptor builders of the schema DSL and the `isJsonSchema` helper
    (src/index.ts). A descriptor is an ordinary JSON value: an object whose fields
    are those of the `json4.schema` record (src/json4schema.d.ts), in the order the
    source's object literals write them. `exactly` and `oneOf` build objects with an
    `enum` field and no `type`. None of the builders checks its arguments. */
module Descriptors {
  import opened Sequences
  import opened Json

  type Fields = seq<(string, Json)>

  /** Whether `k` is listed in `options.optionalProps`; with the option absent no key is. */
  predicate IsOptional(k: string, optionalProps: Option<seq<string>>): (b: bool)
    ensures b <==> optionalProps.Some? && exists i :: 0 <= i < |optionalProps.value| && optionalProps.value[i] == k
  {
    optionalProps.Some? && k in optionalProps.value
  }

  /** The `required` list of `strictObject`: when `optionalProps` is supplied (every
      array is truthy, the empty one too) the keys of `properties` that it does not
      list, otherwise all keys of `properties`; either way in key order. */
  function RequiredKeys(properties: Fields, optionalProps: Option<seq<string>>): (req: seq<string>)
    ensures forall k :: k in req ==> k in Keys(properties) && !IsOptional(k, optionalProps)
    ensures forall k :: k in Keys(properties) && !IsOptional(k, optionalProps) ==> k in req
    ensures IsSubsequence(req, Keys(properties))
    ensures DistinctKeys(properties) ==> Distinct(req)
  {
    var drop := if optionalProps.Some? then optionalProps.value else [];
    FilterOutNothing(Keys(properties), []);
    assert DistinctKeys(properties) ==> Distinct(FilterOut(Keys(properties), drop)) by {
      if DistinctKeys(properties) { FilterOutDistinct(Keys(properties), drop); }
    }
    match optionalProps
    case Some(optional) => FilterOut(Keys(properties), optional)
    case None => Keys(properties)
  }

  /** The names in a descriptor's `required` field, when it holds an array of strings. */
  function RequiredOf(d: Json): Option<seq<string>> {
    match Get(d, "required")
    case Some(list) => StringsOf(list)
    case None => None
  }

  lemma FourKeysDistinct(a: string, b: string, c: string, e: string)
    requires a != b && a != c && a != e && b != c && b != e && c != e
    ensures Distinct([a, b, c, e])
  {
  }

  /** `strictObject(properties, {optionalProps})`: exactly the given properties, no
      others; those not listed as optional are required. */
  function StrictObject(properties: Fields, optionalProps: Option<seq<string>>): (d: Json)
    ensures d.JObj? && Keys(d.fields) == ["type", "properties", "additionalProperties", "required"]
    ensures Get(d, "type") == Some(JStr("object"))
    ensures Get(d, "properties") == Some(JObj(properties))
    ensures Get(d, "additionalProperties") == Some(JBool(false))
    ensures RequiredOf(d).Some?
    ensures forall k :: k in RequiredOf(d).value ==> k in Keys(properties) && !IsOptional(k, optionalProps)
    ensures forall k :: k in Keys(properties) && !IsOptional(k, optionalProps) ==> k in RequiredOf(d).value
    ensures IsSubsequence(RequiredOf(d).value, Keys(properties))
    ensures DistinctKeys(properties) ==> Distinct(RequiredOf(d).value)
  {
    var required := RequiredKeys(properties, optionalProps);
    var d := JObj([("type", JStr("object")), ("properties", JObj(properties)),
                   ("additionalProperties", JBool(false)), ("required", StringList(required))]);
    FourKeysDistinct("type", "properties", "additionalProperties", "required");
    assert Keys(d.fields) == ["type", "properties", "additionalProperties", "required"];
    LookupAt(d.fields, 0);
    LookupAt(d.fields, 1);
    LookupAt(d.fields, 2);
    LookupAt(d.fields, 3);
    StringListRoundTrip(required);
    d
  }

  /** `objectWithRequiredProps(properties)`: at least the given properties, all of
      them required; other properties are tolerated. */
  function ObjectWithRequiredProps(properties: Fields): (d: Json)
    ensures d.JObj? && Keys(d.fields) == ["type", "properties", "additionalProperties", "required"]
    ensures Get(d, "type") == Some(JStr("object"))
    ensures Get(d, "properties") == Some(JObj(properties))
    ensures Get(d, "additionalProperties") == Some(JBool(true))
    ensures RequiredOf(d) == Some(Keys(properties))
  {
    var d := JObj([("type", JStr("object")), ("properties", JObj(properties)),
                   ("additionalProperties", JBool(true)), ("required", StringList(Keys(properties)))]);
    FourKeysDistinct("type", "properties", "additionalProperties", "required");
    assert Keys(d.fields) == ["type", "properties", "additionalProperties", "required"];
    LookupAt(d.fields, 0);
    LookupAt(d.fields, 1);
    LookupAt(d.fields, 2);
    LookupAt(d.fields, 3);
    StringListRoundTrip(Keys(properties));
    d
  }

  /** `objectWithRequiredProps` with the `optionalProps` option its callers pass:
      at least the given properties, those not listed as optional required. */
  function ObjectWithRequiredPropsAndOptions(properties: Fields, optionalProps: Option<seq<string>>): (d: Json)
    ensures d.JObj? && Keys(d.fields) == ["type", "properties", "additionalProperties", "required"]
    ensures Get(d, "type") == Some(JStr("object"))
    ensures Get(d, "properties") == Some(JObj(properties))
    ensures Get(d, "additionalProperties") == Some(JBool(true))
    ensures RequiredOf(d) == Some(RequiredKeys(properties, optionalProps))
  {
    var required := RequiredKeys(properties, optionalProps);
    var d := JObj([("type", JStr("object")), ("properties", JObj(properties)),
                   ("additionalProperties", JBool(true)), ("required", StringList(required))]);
    FourKeysDistinct("type", "properties", "additionalProperties", "required");
    assert Keys(d.fields) == ["type", "properties", "additionalProperties", "required"];
    LookupAt(d.fields, 0);
    LookupAt(d.fields, 1);
    LookupAt(d.fields, 2);
    LookupAt(d.fields, 3);
    StringListRoundTrip(required);
    d
  }

  /** `arrayOfItems(itemSchema, {minItems})`: every element matches `itemSchema`; the
      option is compared with `undefined`, so an explicit 0 is kept and only an
      absent option gives the default of 1. */
  function ArrayOfItems(itemSchema: Json, minItems: Option<int>): (d: Json)
    ensures d.JObj? && Keys(d.fields) == ["type", "items", "minItems"]
    ensures Get(d, "type") == Some(JStr("array"))
    ensures Get(d, "items") == Some(itemSchema)
    ensures minItems.Some? ==> Get(d, "minItems") == Some(JInt(minItems.value))
    ensures minItems.None? ==> Get(d, "minItems") == Some(JInt(1))
  {
    var n := if minItems.Some? then minItems.value else 1;
    JObj([("type", JStr("array")), ("items", itemSchema), ("minItems", JInt(n))])
  }

  const ObjectType: Json := JObj([("type", JStr("object"))])

  /** A non-empty string. */
  const StringType: Json := JObj([("type", JStr("string")), ("minLength", JInt(1))])

  const StringTypeCanBeEmpty: Json := JObj([("type", JStr("string"))])

  /** `stringTypeMatching(regex)`: a non-empty string, with the pattern passed on verbatim. */
  function StringTypeMatching(regex: string): (d: Json)
    ensures d.JObj? && Keys(d.fields) == ["type", "minLength", "pattern"]
    ensures Get(d, "type") == Some(JStr("string"))
    ensures Get(d, "minLength") == Some(JInt(1))
    ensures Get(d, "pattern") == Some(JStr(regex))
  {
    JObj([("type", JStr("string")), ("minLength", JInt(1)), ("pattern", JStr(regex))])
  }

  /** The deliberately loose URL pattern: `http` or `https`, `://`, then at least three
      characters (the unescaped `.` matches any character). */
  const UrlPattern: string := "^http(s)?://.+..+"

  const UrlType: Json := StringTypeMatching(UrlPattern)

  const DateTime: Json := JObj([("type", JStr("string")), ("format", JStr("date-time"))])

  const UuidType: Json := JObj([("type", JStr("string")), ("format", JStr("uuid"))])

  /** `stringTypeExact(expStr)`: the string anchored at both ends. It is not escaped,
      so regular-expression metacharacters in it keep their meaning. There is no
      `minLength`, so `stringTypeExact("")` asks for the empty string. */
  function StringTypeExact(expStr: string): (d: Json)
    ensures d.JObj? && Keys(d.fields) == ["type", "pattern"]
    ensures Get(d, "type") == Some(JStr("string"))
    ensures Get(d, "pattern") == Some(JStr(['^'] + expStr + ['$']))
    ensures Get(d, "minLength") == None
  {
    JObj([("type", JStr("string")), ("pattern", JStr("^" + expStr + "$"))])
  }

  /** The string a `stringTypeExact` descriptor asks for: its pattern without the two
      anchors. */
  function ExactStringOf(d: Json): Option<string> {
    match Get(d, "pattern")
    case Some(JStr(p)) =>
      if 2 <= |p| && p[0] == '^' && p[|p| - 1] == '$' then Some(p[1..|p| - 1]) else None
    case _ => None
  }

  const StringTypePath: Json := JObj([("type", JStr("string")), ("pattern", JStr("^(.*)/(.*)$"))])

  /** A list-valued `type`: a string (of length at least 1) or `null`. */
  const StringTypeOrNull: Json := JObj([("type", JArr([JStr("string"), JStr("null")])), ("minLength", JInt(1))])

  const NumberType: Json := JObj([("type", JStr("number"))])

  /** `numberTypeGreaterThan(minimum)`. The bound goes into `minimum`, which JSON Schema
      reads inclusively. */
  function NumberTypeGreaterThan(minimum: int): (d: Json)
    ensures d.JObj? && Keys(d.fields) == ["type", "minimum"]
    ensures Get(d, "type") == Some(JStr("number"))
    ensures Get(d, "minimum") == Some(JInt(minimum))
  {
    JObj([("type", JStr("number")), ("minimum", JInt(minimum))])
  }

  /** `numberTypeLessThan(maximum)`. The bound goes into the inclusive `maximum`. */
  function NumberTypeLessThan(maximum: int): (d: Json)
    ensures d.JObj? && Keys(d.fields) == ["type", "maximum"]
    ensures Get(d, "type") == Some(JStr("number"))
    ensures Get(d, "maximum") == Some(JInt(maximum))
  {
    JObj([("type", JStr("number")), ("maximum", JInt(maximum))])
  }

  const NullType: Json := JObj([("type", JStr("null"))])

  const BooleanType: Json := JObj([("type", JStr("boolean"))])

  /** `exactly(valueExpected)`: a one-element `enum`, and no `type`. */
  function Exactly(valueExpected: Json): (d: Json)
    ensures d.JObj? && Keys(d.fields) == ["enum"]
    ensures Get(d, "enum") == Some(JArr([valueExpected]))
    ensures Get(d, "type") == None
  {
    JObj([("enum", JArr([valueExpected]))])
  }

  /** `oneOf(valuesExpected)`: the given values as `enum`, and no `type`. */
  function OneOf(valuesExpected: seq<Json>): (d: Json)
    ensures d.JObj? && Keys(d.fields) == ["enum"]
    ensures Get(d, "enum") == Some(JArr(valuesExpected))
    ensures Get(d, "type") == None
  {
    JObj([("enum", JArr(valuesExpected))])
  }

  const ArrayType: Json := JObj([("type", JStr("array"))])

  /** `arrayTypeOfLength(length)`: both length bounds set to `length`, whatever it is
      (a negative length gives a descriptor no array can match). */
  function ArrayTypeOfLength(length: int): (d: Json)
    ensures d.JObj? && Keys(d.fields) == ["type", "minItems", "maxItems"]
    ensures Get(d, "type") == Some(JStr("array"))
    ensures Get(d, "minItems") == Some(JInt(length))
    ensures Get(d, "maxItems") == Some(JInt(length))
  {
    JObj([("type", JStr("array")), ("minItems", JInt(length)), ("maxItems", JInt(length))])
  }

  const ArrayOfObjectsType: Json := JObj([("type", JStr("array")), ("items", ObjectType)])

  /** `isJsonSchema(toBeDetermined)`: whether the value's `type` property is truthy.
      Reading a property of `null` throws a `TypeError` (worded here as V8 words it). */
  function IsJsonSchema(toBeDetermined: Json): (r: Completion<bool>)
    ensures r.Throw? <==> toBeDetermined.JNull?
    ensures r.Throw? ==> r.exception.name == "TypeError"
    ensures r == Normal(true) <==> Get(toBeDetermined, "type").Some? && Truthy(Get(toBeDetermined, "type").value)
  {
    if toBeDetermined.JNull? then
      Throw(Exception("TypeError", "Cannot read properties of null (reading 'type')"))
    else
      match Get(toBeDetermined, "type")
      case Some(t) => Normal(Truthy(t))
      case None => Normal(false)
  }
}
