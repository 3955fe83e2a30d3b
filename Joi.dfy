/**
 * The part of joi's object validation the schemas rely on: a body is an object of optional
 * JSON values, every key has a rule, keys are checked in the order the schema declares them,
 * and validation stops at the first key whose rule fails (joi's default `abortEarly`).
 */
module Joi {
  import opened Wrappers

  /** A JSON value of a request body field. `Other` is a boolean, null, an array or an object. */
  datatype Value = Str(s: string) | Num(n: real) | Other

  /** Outcome of `schema.validate(body)`: valid, or the key of the first failing rule. */
  datatype Validation = Valid | Invalid(key: string)

  /**
   * `joi.string().required()`: the key is there and holds a string; joi's string type
   * refuses the empty string unless the schema allows it, and these schemas do not.
   */
  predicate IsRequiredString(v: Option<Value>)
  {
    v.Some? && v.value.Str? && v.value.s != ""
  }

  /** `joi.number().greater(limit).required()`: the key is there and holds a number above limit. */
  predicate IsRequiredNumberGreater(v: Option<Value>, limit: real)
  {
    v.Some? && v.value.Num? && v.value.n > limit
  }

  /** One key of a schema with the verdict of its rule on the body. */
  datatype Check = Check(key: string, passes: bool)

  /** Runs the checks in order and reports the first that fails. */
  function FirstFailure(checks: seq<Check>): (r: Validation)
    ensures r == Valid <==> forall i :: 0 <= i < |checks| ==> checks[i].passes
    ensures r.Invalid? ==>
      exists i :: 0 <= i < |checks| && !checks[i].passes && checks[i].key == r.key &&
        (forall j :: 0 <= j < i ==> checks[j].passes)
    ensures forall i :: 0 <= i < |checks| && !checks[i].passes && (forall j :: 0 <= j < i ==> checks[j].passes) ==>
      r == Invalid(checks[i].key)
  {
    if checks == [] then Valid
    else if !checks[0].passes then Invalid(checks[0].key)
    else
      var r := FirstFailure(checks[1..]);
      assert forall i :: 1 <= i < |checks| ==> checks[i] == checks[1..][i - 1];
      r
  }
}
