/** How both revisions of the adapter turn the schema validator's error list into
    a thrown error. The validator itself (its rules for the five `smtp_*` fields)
    belongs to a schema library and is a parameter here. */
module Validation {
  import opened Js

  /** One entry of the validator's `errors` list. */
  datatype FieldError = FieldError(message: string)

  /** The validator's answer: `{ validated, errors }`. */
  datatype SchemaResult = SchemaResult(validated: JsValue, errors: seq<FieldError>)

  const InvalidConfigPrefix := "SMTP config invalid: "

  /** `errors.map(e => e.message)` */
  function Messages(errors: seq<FieldError>): (ms: seq<string>)
    ensures |ms| == |errors|
    ensures forall i :: 0 <= i < |errors| ==> ms[i] == errors[i].message
  {
    if errors == [] then [] else Messages(errors[..|errors| - 1]) + [errors[|errors| - 1].message]
  }

  /** The error thrown for a validator answer, or None when validation passes. */
  function ConfigInvalid(errors: seq<FieldError>): (r: Option<Error>)
    ensures r.Some? <==> |errors| > 0
    ensures r.Some? ==> r.value.message == InvalidConfigPrefix + Join(Messages(errors), ", ")
  {
    if |errors| > 0 then Some(Error(InvalidConfigPrefix + Join(Messages(errors), ", "))) else None
  }

  /** The thrown message names every field error the validator reported. */
  lemma ConfigInvalidNamesEachError(errors: seq<FieldError>, i: nat)
    requires i < |errors|
    ensures ConfigInvalid(errors).Some?
    ensures exists k :: OccursAt(errors[i].message, ConfigInvalid(errors).value.message, k)
  {
    var joined := Join(Messages(errors), ", ");
    JoinContainsEach(Messages(errors), ", ", i);
    var k :| OccursAt(errors[i].message, joined, k);
    var full := InvalidConfigPrefix + joined;
    var m := |InvalidConfigPrefix|;
    assert full[m + k..m + k + |errors[i].message|] == joined[k..k + |errors[i].message|];
    assert OccursAt(errors[i].message, full, m + k);
  }

  /** One more error adds its message after a ", " separator. */
  lemma ConfigInvalidAppend(errors: seq<FieldError>, e: FieldError)
    requires errors != []
    ensures ConfigInvalid(errors + [e]).value.message
         == ConfigInvalid(errors).value.message + ", " + e.message
  {
    assert Messages(errors + [e]) == Messages(errors) + [e.message];
  }
}
