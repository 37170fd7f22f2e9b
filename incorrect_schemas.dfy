/** The shallow check that a value handed over as a schema looks like one
    (src/errorHandlingForIncorrectSchemas.ts): a value with at least one key whose
    `type` property is a string. It looks at nothing deeper. */
module IncorrectSchemas {
  import opened Json

  /** The fixed message of the malformed-schema failure; it names no part of the input. */
  const ErrorMsgForIncorrectSchema: string :=
    "The object you were passing is not a valid JSON schema. Are you sure you constructed it correctly? "
    + "From experience, users can sometimes forget to also wrap the main parent object into a "
    + "\"strictObject()\" function as well."

  /** The exception `Object.keys(null)` throws (worded here as V8 words it). */
  const NullToObject: Exception := Exception("TypeError", "Cannot convert undefined or null to object")

  /** `checkIfSuppliedSchemaIsActuallyASchema(schema)`: both tests are evaluated; the
      first, `Object.keys(schema).length > 0`, throws on `null`. */
  function CheckIfSuppliedSchemaIsActuallyASchema(schema: Json): (r: Completion<bool>)
    ensures r.Throw? <==> schema.JNull?
    ensures r.Throw? ==> r == Throw(NullToObject)
    ensures r == Normal(true)
        <==> schema.JObj? && |schema.fields| > 0 && Get(schema, "type").Some? && Get(schema, "type").value.JStr?
  {
    if schema.JNull? then Throw(NullToObject)
    else
      var isAnObjectWithProperties := KeyCount(schema) > 0;
      var hasTypeProperty := TypeOf(Get(schema, "type")) == "string";
      Normal(isAnObjectWithProperties && hasTypeProperty)
  }

  /** `throwErrorIfNotACorrectJsonSchema(schema)`: returns when the check says yes,
      throws an `Error` with the fixed message when it says no, and lets the check's
      own `TypeError` through for `null`. */
  function ThrowErrorIfNotACorrectJsonSchema(schema: Json): (r: Completion<()>)
    ensures r == Normal(()) <==> CheckIfSuppliedSchemaIsActuallyASchema(schema) == Normal(true)
    ensures CheckIfSuppliedSchemaIsActuallyASchema(schema) == Normal(false)
        ==> r == Throw(Exception("Error", ErrorMsgForIncorrectSchema))
    ensures schema.JNull? ==> r == Throw(NullToObject)
  {
    match CheckIfSuppliedSchemaIsActuallyASchema(schema)
    case Throw(e) => Throw(e)
    case Normal(isSchema) =>
      if !isSchema then Throw(Exception("Error", ErrorMsgForIncorrectSchema)) else Normal(())
  }
}
