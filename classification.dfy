/** How the two descriptor tests of the library relate: `isJsonSchema`
    (src/index.ts:241-248) asks for a truthy `type`, the check of
    src/errorHandlingForIncorrectSchemas.ts:2-6 for a non-empty value with a string
    `type`. They agree on most descriptors the builders produce and part ways on a
    list-valued or numeric `type` and on an empty-string `type`. */
module Classification {
  import opened Json
  import opened Descriptors
  import opened IncorrectSchemas

  /** The key count test is implied by the `type` test: a value with a `type`
      property has at least one key. So the check is "`type` is a string". */
  lemma CheckIsStringTypeTest(schema: Json)
    ensures CheckIfSuppliedSchemaIsActuallyASchema(schema) == Normal(true)
        <==> Get(schema, "type").Some? && Get(schema, "type").value.JStr?
  {
    if Get(schema, "type").Some? {
      assert "type" in Keys(schema.fields);
    }
  }

  /** The empty object is not a schema, for either test; the check's failure is the
      fixed message. */
  lemma EmptyObjectIsNotASchema()
    ensures CheckIfSuppliedSchemaIsActuallyASchema(JObj([])) == Normal(false)
    ensures ThrowErrorIfNotACorrectJsonSchema(JObj([])) == Throw(Exception("Error", ErrorMsgForIncorrectSchema))
    ensures IsJsonSchema(JObj([])) == Normal(false)
  {
  }

  /** An object without a `type` key, however many keys it has, is not a schema. */
  lemma MissingTypeIsNotASchema(fields: seq<(string, Json)>)
    requires "type" !in Keys(fields)
    ensures CheckIfSuppliedSchemaIsActuallyASchema(JObj(fields)) == Normal(false)
    ensures ThrowErrorIfNotACorrectJsonSchema(JObj(fields)) == Throw(Exception("Error", ErrorMsgForIncorrectSchema))
    ensures IsJsonSchema(JObj(fields)) == Normal(false)
  {
  }

  /** The plain object `{hello: "world"}` is refused with the fixed message. */
  lemma PlainObjectIsNotASchema()
    ensures ThrowErrorIfNotACorrectJsonSchema(JObj([("hello", JStr("world"))]))
         == Throw(Exception("Error", ErrorMsgForIncorrectSchema))
  {
    MissingTypeIsNotASchema([("hello", JStr("world"))]);
  }

  /** The failure's exception is the same for every refused input. */
  lemma FailureIndependentOfInput(a: Json, b: Json)
    requires ThrowErrorIfNotACorrectJsonSchema(a).Throw? && ThrowErrorIfNotACorrectJsonSchema(b).Throw?
    requires !a.JNull? && !b.JNull?
    ensures ThrowErrorIfNotACorrectJsonSchema(a) == ThrowErrorIfNotACorrectJsonSchema(b)
  {
  }

  /** Exactly where the tests disagree on a value other than `null`: the check alone
      accepts an empty-string `type`; `isJsonSchema` alone accepts a `type` that is
      truthy but not a string (a list of kinds, a non-zero number, `true`, an object). */
  lemma ClassifiersDisagreement(x: Json)
    requires !x.JNull?
    ensures CheckIfSuppliedSchemaIsActuallyASchema(x) == Normal(true) && IsJsonSchema(x) == Normal(false)
        <==> Get(x, "type") == Some(JStr(""))
    ensures CheckIfSuppliedSchemaIsActuallyASchema(x) == Normal(false) && IsJsonSchema(x) == Normal(true)
        <==> Get(x, "type").Some? && !Get(x, "type").value.JStr? && Truthy(Get(x, "type").value)
  {
    CheckIsStringTypeTest(x);
  }

  /** `stringTypeOrNull`, with its list-valued `type`, passes `isJsonSchema` and fails
      the check. */
  lemma ListTypeSplitsTheTests()
    ensures IsJsonSchema(StringTypeOrNull) == Normal(true)
    ensures CheckIfSuppliedSchemaIsActuallyASchema(StringTypeOrNull) == Normal(false)
    ensures ThrowErrorIfNotACorrectJsonSchema(StringTypeOrNull) == Throw(Exception("Error", ErrorMsgForIncorrectSchema))
  {
  }

  /** Both tests accept a descriptor whose `type` is a non-empty string. */
  lemma NamedTypePassesBoth(d: Json, kind: string)
    requires Get(d, "type") == Some(JStr(kind)) && kind != ""
    ensures IsJsonSchema(d) == Normal(true)
    ensures CheckIfSuppliedSchemaIsActuallyASchema(d) == Normal(true)
    ensures ThrowErrorIfNotACorrectJsonSchema(d) == Normal(())
  {
    CheckIsStringTypeTest(d);
  }

  /** The object and array builders pass both tests, whatever their arguments. */
  lemma StructureBuildersPassBoth(properties: Fields, optionalProps: Option<seq<string>>,
                                  item: Json, minItems: Option<int>, length: int)
    ensures ThrowErrorIfNotACorrectJsonSchema(StrictObject(properties, optionalProps)) == Normal(())
    ensures ThrowErrorIfNotACorrectJsonSchema(ObjectWithRequiredProps(properties)) == Normal(())
    ensures ThrowErrorIfNotACorrectJsonSchema(ArrayOfItems(item, minItems)) == Normal(())
    ensures ThrowErrorIfNotACorrectJsonSchema(ArrayTypeOfLength(length)) == Normal(())
    ensures IsJsonSchema(StrictObject(properties, optionalProps)) == Normal(true)
    ensures IsJsonSchema(ObjectWithRequiredProps(properties)) == Normal(true)
    ensures IsJsonSchema(ArrayOfItems(item, minItems)) == Normal(true)
    ensures IsJsonSchema(ArrayTypeOfLength(length)) == Normal(true)
  {
    NamedTypePassesBoth(StrictObject(properties, optionalProps), "object");
    NamedTypePassesBoth(ObjectWithRequiredProps(properties), "object");
    NamedTypePassesBoth(ArrayOfItems(item, minItems), "array");
    NamedTypePassesBoth(ArrayTypeOfLength(length), "array");
  }

  /** The string and number builders pass both tests, whatever their arguments. */
  lemma ScalarBuildersPassBoth(regex: string, expStr: string, bound: int)
    ensures ThrowErrorIfNotACorrectJsonSchema(StringTypeMatching(regex)) == Normal(())
    ensures ThrowErrorIfNotACorrectJsonSchema(StringTypeExact(expStr)) == Normal(())
    ensures ThrowErrorIfNotACorrectJsonSchema(NumberTypeGreaterThan(bound)) == Normal(())
    ensures ThrowErrorIfNotACorrectJsonSchema(NumberTypeLessThan(bound)) == Normal(())
    ensures IsJsonSchema(StringTypeMatching(regex)) == Normal(true)
    ensures IsJsonSchema(StringTypeExact(expStr)) == Normal(true)
    ensures IsJsonSchema(NumberTypeGreaterThan(bound)) == Normal(true)
    ensures IsJsonSchema(NumberTypeLessThan(bound)) == Normal(true)
  {
    NamedTypePassesBoth(StringTypeMatching(regex), "string");
    NamedTypePassesBoth(StringTypeExact(expStr), "string");
    NamedTypePassesBoth(NumberTypeGreaterThan(bound), "number");
    NamedTypePassesBoth(NumberTypeLessThan(bound), "number");
  }

  /** A descriptor both tests accept. */
  predicate PassesBoth(d: Json) {
    ThrowErrorIfNotACorrectJsonSchema(d) == Normal(()) && IsJsonSchema(d) == Normal(true)
  }

  /** The fixed string descriptors pass both tests. */
  lemma FixedStringDescriptorsPassBoth()
    ensures PassesBoth(StringType) && PassesBoth(StringTypeCanBeEmpty) && PassesBoth(UrlType)
    ensures PassesBoth(DateTime) && PassesBoth(UuidType) && PassesBoth(StringTypePath)
  {
    ScalarBuildersPassBoth(UrlPattern, "", 0);
  }

  /** The other fixed descriptors pass both tests as well. */
  lemma FixedPlainDescriptorsPassBoth()
    ensures PassesBoth(ObjectType) && PassesBoth(NumberType) && PassesBoth(NullType)
    ensures PassesBoth(BooleanType) && PassesBoth(ArrayType) && PassesBoth(ArrayOfObjectsType)
  {
  }

  /** `exactly(v)` and `oneOf(vs)` have no `type`: both tests refuse them. */
  lemma EnumBuildersFailBoth(v: Json, values: seq<Json>)
    ensures ThrowErrorIfNotACorrectJsonSchema(Exactly(v)) == Throw(Exception("Error", ErrorMsgForIncorrectSchema))
    ensures ThrowErrorIfNotACorrectJsonSchema(OneOf(values)) == Throw(Exception("Error", ErrorMsgForIncorrectSchema))
    ensures IsJsonSchema(Exactly(v)) == Normal(false)
    ensures IsJsonSchema(OneOf(values)) == Normal(false)
  {
  }

  /** Neither test accepts `null`: both throw a `TypeError`. */
  lemma NullThrowsInBoth()
    ensures IsJsonSchema(JNull).Throw? && IsJsonSchema(JNull).exception.name == "TypeError"
    ensures ThrowErrorIfNotACorrectJsonSchema(JNull) == Throw(NullToObject)
  {
  }
}
