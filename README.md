# JSON-schema descriptor builders, modelled in Dafny

The library is a small DSL for writing JSON schemas in Jest tests. Builders such as `strictObject`, `arrayOfItems` and `stringTypeExact` return plain schema objects. Constants such as `stringType` and `urlType` are fixed descriptors.

Two shallow tests decide whether a value looks like a schema:
- `isJsonSchema` asks for a truthy `type`.
- `checkIfSuppliedSchemaIsActuallyASchema` asks for at least one key and a string `type`. `throwErrorIfNotACorrectJsonSchema` turns a "no" from it into an `Error` with a fixed message.

`expectToMatchSchema` runs the schema matcher. When the matcher throws, the wrapper rethrows the same exception with the rendered object appended to the message.

The model is pure. Every builder and test is an expression over values. The source's one in-place update, the rethrown message in `expectToMatchSchema`, becomes a returned value.
- **Values.** A JavaScript value is a `Json` datatype. An object is the list of its own properties in insertion order, and `Object.keys` lists them in that order. Integer-like keys, which JavaScript lists first, are not reordered (see Left out).
- **Exceptions.** A thrown exception is the `Throw` case of a `Completion` result.
- **`null`.** `null` throws a `TypeError` in both tests: `Object.keys(null)` in the schema check, the read of `type` in `isJsonSchema`. The messages are worded as V8 words them.
- **Matcher and renderer.** The schema matcher (`expect(object).toMatchSchema`) and the renderer (`prettyPrintObject`) are parameters of the wrapper.

Modules:
- `Sequences`: an order-preserving filter, subsequences and distinctness.
- `Json`: values, property reads, `typeof`, truthiness, `Object.keys`, and property assignment and deletion.
- `Descriptors`: the builders, the constants and `isJsonSchema`.
- `DescriptorLaws`: how `required` follows from `properties`, the option defaults, how the descriptors relate to one another, and well-formedness.
- `IncorrectSchemas`: the schema check and its failure.
- `Classification`: how the two tests relate on the descriptors.
- `MatchWrapper`: the message enrichment.

Facts about the source that the model states:
- `expectToMatchSchema` never calls `throwErrorIfNotACorrectJsonSchema`, so a malformed schema reaches the matcher unchecked. See Findings.
- `objectWithRequiredProps` has no options parameter, so the `optionalProps` its callers pass is ignored. See Findings.
- `src/tests/basicExample.spec.ts:8` imports an `anyOf` that `src/index.ts` does not define. No `anyOf` is modelled.
- `numberTypeGreaterThan` and `numberTypeLessThan` write JSON Schema's inclusive `minimum` and `maximum`, despite their names.
- `stringTypeExact` does not escape regular-expression metacharacters in its argument.
- `isJsonSchema` and the schema check disagree:
  - a list-valued or non-zero numeric `type` passes only `isJsonSchema`;
  - an empty-string `type` passes only the check;
  - both refuse the empty object.

## Model

| member | source | states |
|---|---|---|
| Sequences.FilterOut | src/index.ts:31-33 | the kept elements are exactly those of the input not in the dropped list, in input order (a subsequence) |
| Sequences.FilterOutUnique | src/index.ts:30-34 | for an input without repeats, the filter is the only subsequence holding exactly the kept elements |
| Sequences.FilterOutDistinct | src/index.ts:31-33 | filtering a list without repeats gives a list without repeats |
| Sequences.FilterOutNothing | src/index.ts:31-33 | dropping names none of which occur leaves the list unchanged |
| Sequences.FilterOutCounts | src/index.ts:31-33 | every element of the input that is kept occurs in the result as often as in the input; a dropped one not at all |
| Json.Lookup | src/index.ts:244 | a property is found exactly when its key is among the object's keys, paired with its value |
| Json.LookupAt | src/index.ts:35-40 | in an object literal with distinct keys each key reads back its own value |
| Json.Get | src/errorHandlingForIncorrectSchemas.ts:4 | a property read yields a value exactly when the value is an object with that key, and the value read is one stored under that key |
| Json.Keys | src/index.ts:52 | `Object.keys`: the object's keys in property order, one per property |
| Json.KeyCount | src/errorHandlingForIncorrectSchemas.ts:3 | `Object.keys(v).length`: the number of properties of an object, of elements of an array, of characters of a string (Unicode scalar values, not UTF-16 code units); 0 for a boolean or a number |
| Json.TypeOf | src/errorHandlingForIncorrectSchemas.ts:4 | `typeof`: `undefined` exactly for a missing property, `string`, `number` and `boolean` exactly for those values, `object` exactly for `null`, arrays and objects |
| Json.Truthy | src/index.ts:244 | a value is falsy exactly when it is `null`, `false`, `0` or the empty string |
| Descriptors.IsOptional | src/index.ts:32 | `optionalProps.includes(k)`: true exactly when the option is given and lists `k` |
| Json.StringListRoundTrip | src/index.ts:52 | reading the strings back from `Object.keys`' array gives the keys |
| Descriptors.RequiredKeys | src/index.ts:30-34 | with `optionalProps` the keys not listed in it, else all keys, in key order, without repeats when the keys have none |
| Descriptors.StrictObject | src/index.ts:24-41 | keys `type`, `properties`, `additionalProperties`, `required` in that order; `object`, the properties unchanged, `false`; `required` holds exactly the non-optional keys, in key order |
| Descriptors.ObjectWithRequiredProps | src/index.ts:47-54 | the same four keys; `additionalProperties` is `true` and `required` is all keys |
| Descriptors.ObjectWithRequiredPropsAndOptions | src/tests/objectWithRequiredProps.spec.ts:41-47 | the lenient object with the option honoured: `required` is the keys not listed as optional |
| Descriptors.ArrayOfItems | src/index.ts:61-73 | `type` `array`, `items` the item schema, `minItems` the option when given (0 too), else 1 |
| Descriptors.StringTypeMatching | src/index.ts:101-105 | a non-empty string with the regex as `pattern`, verbatim |
| Descriptors.StringTypeExact | src/index.ts:132-135 | a string with pattern `^` + argument + `$` and no `minLength` |
| Descriptors.NumberTypeGreaterThan | src/index.ts:164-167 | `type` `number` and the bound as inclusive `minimum` |
| Descriptors.NumberTypeLessThan | src/index.ts:173-176 | `type` `number` and the bound as inclusive `maximum` |
| Descriptors.Exactly | src/index.ts:196-198 | only `enum`, holding the one value; no `type` |
| Descriptors.OneOf | src/index.ts:204-206 | only `enum`, holding the values; no `type` |
| Descriptors.ArrayTypeOfLength | src/index.ts:219-223 | `type` `array` with both length bounds equal to the argument |
| Descriptors.IsJsonSchema | src/index.ts:241-248 | throws a `TypeError` exactly for `null`; otherwise true exactly when `type` is present and truthy |
| DescriptorLaws.StrictObjectAllRequired | src/index.ts:34 | without options every property is required, in key order |
| DescriptorLaws.OptionalNonKeysIgnored | src/index.ts:30-33 | optional names that are not properties change nothing |
| DescriptorLaws.EmptyOptionalPropsSameAsOmitted | src/index.ts:30 | an empty `optionalProps` (truthy) gives the same descriptor as none |
| DescriptorLaws.StrictObjectRequiredUnique | src/index.ts:30-34 | `required` is determined by its contents and order: any other order-preserving list of the non-optional keys is it |
| DescriptorLaws.ObjectWithRequiredPropsIsLenientStrictObject | src/index.ts:35-53 | `objectWithRequiredProps(p)` is `strictObject(p)` with `additionalProperties` set to `true` in place |
| DescriptorLaws.OptionalPropsOnlyForStrictObject | src/index.ts:24-54 | for `{a, b}` with `b` optional `strictObject` requires `a` only; `objectWithRequiredProps` requires both |
| DescriptorLaws.OptionalPropsTestObjectMissesRequired | src/tests/objectWithRequiredProps.spec.ts:36-48 | as written, the test's descriptor requires `a` and `b` while its object has keys `a` and `c` |
| DescriptorLaws.OptionalPropsTestObjectHasRequired | src/tests/objectWithRequiredProps.spec.ts:36-48 | with the option honoured the descriptor requires only `a`, which the object has |
| DescriptorLaws.ObjectWithOptionsExtendsObjectWithRequiredProps | src/index.ts:47-54 | without options the amended builder is `objectWithRequiredProps` |
| DescriptorLaws.ArrayOfItemsDefault | src/index.ts:67 | `minItems` is 1 exactly when the option is absent or 1 |
| DescriptorLaws.ArrayOfItemsZeroKept | src/index.ts:67 | an explicit 0 is kept; the default is not 0 |
| DescriptorLaws.StringTypeExactRoundTrip | src/index.ts:132-135 | the argument is read back from the pattern by stripping the anchors |
| DescriptorLaws.StringTypeExactInjective | src/index.ts:132-135 | different strings give different descriptors |
| DescriptorLaws.StringTypeCanBeEmptyDropsMinLength | src/index.ts:85-95 | `stringTypeCanBeEmpty` is `stringType` with `minLength` deleted |
| DescriptorLaws.StringTypeMatchingAddsPattern | src/index.ts:101-110 | `stringTypeMatching(r)` is `stringType` with `pattern: r` added; `urlType` has the URL pattern and `minLength` 1 |
| DescriptorLaws.StringTypeExactAddsAnchoredPattern | src/index.ts:132-135 | `stringTypeExact(s)` is `stringTypeCanBeEmpty` with the anchored pattern added |
| DescriptorLaws.FormattedStringsAddOneField | src/index.ts:115-143 | `dateTime`, `uuidType`, `stringTypePath` are `stringTypeCanBeEmpty` plus one format or pattern |
| DescriptorLaws.StringTypeOrNullWidensType | src/index.ts:148-151 | `stringTypeOrNull` is `stringType` with `type` replaced in place by `["string", "null"]` |
| DescriptorLaws.NumberBoundsAddOneField | src/index.ts:156-176 | each bound builder is `numberType` plus its one bound |
| DescriptorLaws.ArrayTypeOfLengthAddsBounds | src/index.ts:211-223 | `arrayTypeOfLength(n)` is `arrayType` plus both bounds |
| DescriptorLaws.ArrayOfObjectsTypeAddsItems | src/index.ts:228-233 | `arrayOfObjectsType` is `arrayType` plus `items: objectType` |
| DescriptorLaws.ArrayOfItemsAddsItems | src/index.ts:61-73 | `arrayOfItems` with an explicit `minItems` is `arrayType` plus `items` and then `minItems` |
| DescriptorLaws.ExactlyIsOneOfSingleton | src/index.ts:196-206 | `exactly(v)` is `oneOf([v])` |
| DescriptorLaws.PlainDescriptorsHaveOnlyType | src/index.ts:78-213 | the plain descriptors hold only their `type` |
| DescriptorLaws.StringTypeFields | src/index.ts:85-88 | `stringType` is `type` `string` with `minLength` 1 |
| DescriptorLaws.StrictObjectWellFormed | src/index.ts:24-41 | from well-formed properties the descriptor has distinct keys at every depth |
| DescriptorLaws.ObjectWithRequiredPropsWellFormed | src/index.ts:47-54 | likewise for `objectWithRequiredProps` |
| DescriptorLaws.ArrayOfItemsWellFormed | src/index.ts:61-73 | likewise for `arrayOfItems` with a well-formed item |
| DescriptorLaws.StringBuildersWellFormed | src/index.ts:101-135 | the string builders give well-formed descriptors |
| DescriptorLaws.BoundBuildersWellFormed | src/index.ts:164-223 | the bound builders give well-formed descriptors |
| DescriptorLaws.EnumBuildersWellFormed | src/index.ts:196-206 | `exactly` and `oneOf` of well-formed values are well formed |
| DescriptorLaws.FixedStringDescriptorsWellFormed | src/index.ts:85-126 | the fixed string descriptors are well formed |
| DescriptorLaws.FixedPatternDescriptorsWellFormed | src/index.ts:110-143 | `urlType` and `stringTypePath` are well formed |
| DescriptorLaws.StringTypeOrNullWellFormed | src/index.ts:148-151 | `stringTypeOrNull` is well formed |
| DescriptorLaws.FixedPlainDescriptorsWellFormed | src/index.ts:78-233 | the other fixed descriptors are well formed |
| IncorrectSchemas.CheckIfSuppliedSchemaIsActuallyASchema | src/errorHandlingForIncorrectSchemas.ts:2-6 | throws exactly for `null` (the `Object.keys` `TypeError`); true exactly for an object with keys and a string `type` |
| IncorrectSchemas.ThrowErrorIfNotACorrectJsonSchema | src/errorHandlingForIncorrectSchemas.ts:8-15 | returns exactly when the check is true; an `Error` with the fixed message when it is false; the check's `TypeError` for `null` |
| Classification.CheckIsStringTypeTest | src/errorHandlingForIncorrectSchemas.ts:2-6 | the key-count test is redundant: the check is true exactly when `type` is a string |
| Classification.EmptyObjectIsNotASchema | src/errorHandlingForIncorrectSchemas.ts:2-15 | both tests refuse `{}`; the failure is the fixed message |
| Classification.MissingTypeIsNotASchema | src/errorHandlingForIncorrectSchemas.ts:2-15 | an object without `type` is refused by both tests, whatever else it holds |
| Classification.PlainObjectIsNotASchema | src/tests/errorsOnIncorrectSchema.spec.ts:10-12 | `{hello: "world"}` is refused with the fixed message |
| Classification.FailureIndependentOfInput | src/errorHandlingForIncorrectSchemas.ts:8-13 | every refused non-null input gets the same exception |
| Classification.ClassifiersDisagreement | src/errorHandlingForIncorrectSchemas.ts:2-6 | the tests disagree exactly on an empty-string `type` (check only) and a truthy non-string `type` (`isJsonSchema` only) |
| Classification.ListTypeSplitsTheTests | src/index.ts:148-151 | `stringTypeOrNull` passes `isJsonSchema` and fails the check |
| Classification.NamedTypePassesBoth | src/errorHandlingForIncorrectSchemas.ts:2-15 | a non-empty string `type` passes both tests |
| Classification.StructureBuildersPassBoth | src/index.ts:24-73 | the object and array builders pass both tests for all arguments |
| Classification.ScalarBuildersPassBoth | src/index.ts:101-176 | the string and number builders pass both tests for all arguments |
| Classification.FixedStringDescriptorsPassBoth | src/index.ts:85-143 | the fixed string descriptors pass both tests |
| Classification.FixedPlainDescriptorsPassBoth | src/index.ts:78-233 | the other fixed descriptors, except `stringTypeOrNull`, pass both tests |
| Classification.EnumBuildersFailBoth | src/index.ts:196-206 | `exactly` and `oneOf` fail both tests |
| Classification.NullThrowsInBoth | src/errorHandlingForIncorrectSchemas.ts:2-6 | both tests throw a `TypeError` on `null` |
| MatchWrapper.ExpectToMatchSchema | src/index.ts:8-17 | succeeds exactly when the matcher does; a failure keeps the exception's name and appends the header and rendering to its message |
| MatchWrapper.RenderingRecoverable | src/index.ts:12-14 | the rendered object is recovered from the enriched message |
| MatchWrapper.MatcherMessageKept | src/tests/expectToMatchSchema.spec.ts:35-38 | any text the matcher's message contains, the enriched message contains |
| MatchWrapper.NeverTheIncorrectSchemaException | src/index.ts:8-17 | the wrapper never fails with the malformed-schema exception |
| MatchWrapper.IncorrectSchemaNotReported | src/tests/errorsOnIncorrectSchema.spec.ts:10-21 | as written, with an accepting matcher the malformed test schema passes although the check refuses it |
| MatchWrapper.ExpectToMatchCheckedSchema | src/index.ts:8-17 | the wrapper with the check first: the check's exception when it fails, the wrapper's result otherwise |
| MatchWrapper.IncorrectSchemaReported | src/tests/errorsOnIncorrectSchema.spec.ts:14-21 | checked first, every refused non-null schema fails with a message containing the fixed message |
| MatchWrapper.TestSchemaReported | src/tests/errorsOnIncorrectSchema.spec.ts:10-21 | the test's schema is reported that way, whatever the matcher |

## Left out

- The schema matcher (`expect(object).toMatchSchema`) is a parameter. It stands for the Ajv validator and its semantics: `format`, `pattern` regular expressions, `enum` deep equality, `required` and `additionalProperties` checking. That is foreign library code.
- `prettyPrintObject` is a parameter. Its rendering comes from another module, `src/general`, which is not part of this model.
- `src/setup.ts` and `jest.config.js` register the matcher with Jest. They hold no logic of the core.
- Numbers are unbounded integers. Floating point, `NaN`, fractional bounds and `-0` are not modelled, so `isJsonSchema` treating a `NaN` `type` as falsy is not modelled either.
- Json.KeyCount: counts a string's characters as Unicode scalar values, not as the UTF-16 code units JavaScript counts (`Object.keys("😀").length` is 2). The core only tests the count against 0, and a string is non-empty in both measures alike.
- JavaScript lists integer-like keys first in `Object.keys`. The model keeps plain insertion order, which is what the descriptors' keys use.
- `undefined` and other non-JSON values (functions, symbols) are not modelled. `Object.keys(undefined)` and reading `undefined.type` are therefore absent.
- Builders the source types loosely are limited to JSON values. A `properties` argument that is not an object, and `exactly` or `oneOf` given values that are not JSON, are outside the model.
- The rethrow in `expectToMatchSchema` changes the caught exception object in place. The model returns a new exception with the same name and the longer message, so object identity and any further exception fields are not modelled.
- The `anyOf` the tests import does not exist in the source, so there is nothing to model.

## Findings

| source | as written | input that shows it | evidently intended | confidence | as-written member | corrected member |
|---|---|---|---|---|---|---|
| src/index.ts:8-17 | `expectToMatchSchema` passes the schema straight to the matcher; `throwErrorIfNotACorrectJsonSchema` is never called | object `{a: 1, b: true}`, schema `{hello: "world"}`, with a matcher that ignores the unknown keyword `hello` | the schema is checked first, so the failure carries `errorMsgForIncorrectSchema`, as src/tests/errorsOnIncorrectSchema.spec.ts:16-21 expects | not executed; medium (depends on the matcher accepting the schema) | MatchWrapper.IncorrectSchemaNotReported | MatchWrapper.ExpectToMatchCheckedSchema |
| src/index.ts:47-54 | `objectWithRequiredProps` takes no options and requires every property | properties `{a: exactly("1"), b: exactly("2")}` with `optionalProps: ["b"]`, object `{a: "1", c: "3"}`; `b` is required and missing | `optionalProps` is honoured as in `strictObject`, as src/tests/objectWithRequiredProps.spec.ts:36-48 expects | not executed; medium | DescriptorLaws.OptionalPropsTestObjectMissesRequired | Descriptors.ObjectWithRequiredPropsAndOptions |
