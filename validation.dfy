/** The `validate` function and its `Validatable` description of one input
    (src/app.ts:118-163). */
module Validation {
  import opened Wrappers
  import opened JsRuntime

  /** The `string | number` value under validation. */
  datatype Value = Str(s: string) | Number(n: Num)

  /** `value.toString()`. */
  function ValueToString(v: Value): string {
    match v
    case Str(s) => s
    case Number(n) => NumToString(n)
  }

  /** A `Validatable`: the value plus the optional constraints. An absent
      `required` behaves as `false`; the other constraints are `None` when
      absent. */
  datatype Validatable = Validatable(
    value: Value,
    required: bool,
    minLength: Option<int>,
    maxLength: Option<int>,
    min: Option<int>,
    max: Option<int>)

  /** `n > bound` on JavaScript numbers: false for NaN. */
  predicate Above(n: Num, bound: int) {
    n.Finite? && n.value > bound
  }

  /** `n < bound` on JavaScript numbers: false for NaN. */
  predicate Below(n: Num, bound: int) {
    n.Finite? && n.value < bound
  }

  /** `validate(input)`: one flag, and'ed with each check that applies.
      The result is the conjunction of the applicable checks: `required`
      rejects a string made only of whitespace and never rejects a number;
      the length bounds are strict, apply only to strings and compare the
      untrimmed `.length` in UTF-16 code units; the value bounds are strict,
      apply only to numbers and reject NaN. */
  function Validate(input: Validatable): (isValid: bool)
    ensures isValid <==>
      && (input.required && input.value.Str? ==> !IsBlank(input.value.s))
      && (input.minLength.Some? && input.value.Str? ==> Utf16Length(input.value.s) > input.minLength.value)
      && (input.maxLength.Some? && input.value.Str? ==> Utf16Length(input.value.s) < input.maxLength.value)
      && (input.min.Some? && input.value.Number? ==> input.value.n.Finite? && input.value.n.value > input.min.value)
      && (input.max.Some? && input.value.Number? ==> input.value.n.Finite? && input.value.n.value < input.max.value)
  {
    TrimEmptyIffBlank(ValueToString(input.value));
    var isValid := true;
    var isValid :=
      if input.required then isValid && |Trim(ValueToString(input.value))| != 0 else isValid;
    var isValid :=
      if input.minLength.Some? && input.value.Str? then isValid && Utf16Length(input.value.s) > input.minLength.value
      else isValid;
    var isValid :=
      if input.maxLength.Some? && input.value.Str? then isValid && Utf16Length(input.value.s) < input.maxLength.value
      else isValid;
    var isValid :=
      if input.min.Some? && input.value.Number? then isValid && Above(input.value.n, input.min.value)
      else isValid;
    var isValid :=
      if input.max.Some? && input.value.Number? then isValid && Below(input.value.n, input.max.value)
      else isValid;
    isValid
  }

  /** A `Validatable` that sets no constraint field passes, whatever its value. */
  lemma UnconstrainedIsValid(value: Value)
    ensures Validate(Validatable(value, false, None, None, None, None))
  {
  }

  /** `required` on a number never fails: its string form is never blank,
      NaN included. */
  lemma RequiredNumberPasses(n: Num)
    ensures Validate(Validatable(Number(n), true, None, None, None, None))
  {
  }
}
