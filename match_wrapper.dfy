/** `expectToMatchSchema(object, schema)` (src/index.ts:8-17): runs the schema
    matcher and, when it throws, rethrows the same exception with the rendered
    object appended to its message. The matcher (`expect(object).toMatchSchema`) and
    the renderer (`prettyPrintObject`) are parameters: their behaviour is not part of
    this model. */
module MatchWrapper {
  import opened Json
  import opened IncorrectSchemas

  /** The text put between the matcher's message and the rendered object. */
  const MismatchHeader: string := "\nSchema mismatch. Actual result:\n"

  /** `t` occurs in `s` at position `i`. */
  predicate OccursAt(s: string, t: string, i: int) {
    0 <= i <= |s| - |t| && s[i..i + |t|] == t
  }

  /** `s` contains `t`, as `expect(s).toContain(t)` asks. */
  predicate Contains(s: string, t: string) {
    exists i | 0 <= i <= |s| - |t| :: OccursAt(s, t, i)
  }

  /** `expectToMatchSchema` as written. It does not look at the schema itself: the
      schema reaches only the matcher. A failure keeps the exception's name; only its
      message grows. */
  function ExpectToMatchSchema(toMatchSchema: (Json, Json) -> Completion<()>, prettyPrintObject: Json -> string,
                               actual: Json, schema: Json): (r: Completion<()>)
    ensures r.Normal? <==> toMatchSchema(actual, schema).Normal?
    ensures r.Throw? ==> r.exception.name == toMatchSchema(actual, schema).exception.name
    ensures r.Throw? ==>
      r.exception.message == toMatchSchema(actual, schema).exception.message + MismatchHeader + prettyPrintObject(actual) + "\n"
  {
    match toMatchSchema(actual, schema)
    case Normal(_) => Normal(())
    case Throw(error) =>
      Throw(error.(message := error.message + MismatchHeader + prettyPrintObject(actual) + "\n"))
  }

  /** The rendering inside an enriched message, given the matcher's own message. */
  function RenderingOf(enriched: string, original: string): Option<string> {
    var start := |original| + |MismatchHeader|;
    if start < |enriched| && enriched[..start] == original + MismatchHeader && enriched[|enriched| - 1] == '\n'
    then Some(enriched[start..|enriched| - 1])
    else None
  }

  /** The enrichment can be undone: the rendered object is read back from the message. */
  lemma RenderingRecoverable(toMatchSchema: (Json, Json) -> Completion<()>, prettyPrintObject: Json -> string,
                             actual: Json, schema: Json)
    requires toMatchSchema(actual, schema).Throw?
    ensures ExpectToMatchSchema(toMatchSchema, prettyPrintObject, actual, schema).Throw?
    ensures RenderingOf(ExpectToMatchSchema(toMatchSchema, prettyPrintObject, actual, schema).exception.message,
                        toMatchSchema(actual, schema).exception.message) == Some(prettyPrintObject(actual))
  {
    var original := toMatchSchema(actual, schema).exception.message;
    var enriched := ExpectToMatchSchema(toMatchSchema, prettyPrintObject, actual, schema).exception.message;
    var start := |original| + |MismatchHeader|;
    assert enriched == (original + MismatchHeader) + (prettyPrintObject(actual) + "\n");
    assert enriched[..start] == original + MismatchHeader;
    assert enriched[start..|enriched| - 1] == prettyPrintObject(actual);
  }

  /** The matcher's message opens the enriched one, so whatever the matcher reported
      (".a should be string", say) the caller still finds. */
  lemma MatcherMessageKept(toMatchSchema: (Json, Json) -> Completion<()>, prettyPrintObject: Json -> string,
                           actual: Json, schema: Json, reported: string)
    requires toMatchSchema(actual, schema).Throw?
    requires Contains(toMatchSchema(actual, schema).exception.message, reported)
    ensures Contains(ExpectToMatchSchema(toMatchSchema, prettyPrintObject, actual, schema).exception.message, reported)
  {
    var original := toMatchSchema(actual, schema).exception.message;
    var enriched := ExpectToMatchSchema(toMatchSchema, prettyPrintObject, actual, schema).exception.message;
    var i :| 0 <= i <= |original| - |reported| && OccursAt(original, reported, i);
    assert enriched == original + (MismatchHeader + prettyPrintObject(actual) + "\n");
    assert enriched[i..i + |reported|] == original[i..i + |reported|];
    assert OccursAt(enriched, reported, i);
  }

  /** A failure of the wrapper is never the malformed-schema exception: its message
      ends with a line break, the fixed message with a full stop. */
  lemma NeverTheIncorrectSchemaException(toMatchSchema: (Json, Json) -> Completion<()>, prettyPrintObject: Json -> string,
                                         actual: Json, schema: Json)
    ensures ExpectToMatchSchema(toMatchSchema, prettyPrintObject, actual, schema)
         != Throw(Exception("Error", ErrorMsgForIncorrectSchema))
  {
    var r := ExpectToMatchSchema(toMatchSchema, prettyPrintObject, actual, schema);
    if r.Throw? {
      var m := r.exception.message;
      assert m[|m| - 1] == '\n';
      assert ErrorMsgForIncorrectSchema[|ErrorMsgForIncorrectSchema| - 1] == '.';
    }
  }

  /** The object and the schema of the malformed-schema test. */
  const TestObject: Json := JObj([("a", JInt(1)), ("b", JBool(true))])
  const NotACorrectJsonSchema: Json := JObj([("hello", JStr("world"))])

  /** As written, a malformed schema is not reported: with a matcher that accepts it
      (one that ignores unknown keywords, as `hello` is to a JSON Schema validator) the
      wrapper returns normally, although the check refuses that schema. */
  lemma IncorrectSchemaNotReported()
    ensures ThrowErrorIfNotACorrectJsonSchema(NotACorrectJsonSchema).Throw?
    ensures ExpectToMatchSchema((actual, schema) => Normal(()), actual => "", TestObject, NotACorrectJsonSchema)
         == Normal(())
  {
  }

  /** The wrapper with the schema checked before it is matched. */
  function ExpectToMatchCheckedSchema(toMatchSchema: (Json, Json) -> Completion<()>, prettyPrintObject: Json -> string,
                                      actual: Json, schema: Json): (r: Completion<()>)
    ensures ThrowErrorIfNotACorrectJsonSchema(schema).Throw? ==> r == ThrowErrorIfNotACorrectJsonSchema(schema)
    ensures ThrowErrorIfNotACorrectJsonSchema(schema).Normal?
        ==> r == ExpectToMatchSchema(toMatchSchema, prettyPrintObject, actual, schema)
  {
    match ThrowErrorIfNotACorrectJsonSchema(schema)
    case Throw(error) => Throw(error)
    case Normal(_) => ExpectToMatchSchema(toMatchSchema, prettyPrintObject, actual, schema)
  }

  /** Checked first, every malformed schema other than `null` is reported with the
      fixed message, whatever the matcher would say. */
  lemma IncorrectSchemaReported(toMatchSchema: (Json, Json) -> Completion<()>, prettyPrintObject: Json -> string,
                                actual: Json, schema: Json)
    requires CheckIfSuppliedSchemaIsActuallyASchema(schema) == Normal(false)
    ensures ExpectToMatchCheckedSchema(toMatchSchema, prettyPrintObject, actual, schema).Throw?
    ensures Contains(ExpectToMatchCheckedSchema(toMatchSchema, prettyPrintObject, actual, schema).exception.message,
                     ErrorMsgForIncorrectSchema)
  {
    var m := ExpectToMatchCheckedSchema(toMatchSchema, prettyPrintObject, actual, schema).exception.message;
    assert m[0..|ErrorMsgForIncorrectSchema|] == ErrorMsgForIncorrectSchema;
    assert OccursAt(m, ErrorMsgForIncorrectSchema, 0);
  }

  /** The malformed-schema test's inputs: the checked wrapper reports them. */
  lemma TestSchemaReported(toMatchSchema: (Json, Json) -> Completion<()>, prettyPrintObject: Json -> string)
    ensures Contains(ExpectToMatchCheckedSchema(toMatchSchema, prettyPrintObject, TestObject, NotACorrectJsonSchema)
                       .exception.message, ErrorMsgForIncorrectSchema)
  {
    IncorrectSchemaReported(toMatchSchema, prettyPrintObject, TestObject, NotACorrectJsonSchema);
  }
}
