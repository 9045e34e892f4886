/** `FieldError`: one invalid input field, an immutable record, plus its
    mutable builder. */
module FieldErrors {
  import opened Wrappers

  /** An arbitrary Java object, known only by what its `toString()` returns
      (`None` when `toString()` returns null). */
  datatype JavaObject = JavaObject(toStringForm: Option<string>)

  /** The record `FieldError(field, code, message, rejectedValue)`; every
      component may be null and none is validated. */
  datatype FieldError = FieldError(
    field: Option<string>,
    code: Option<string>,
    message: Option<string>,
    rejectedValue: Option<JavaObject>)

  /** The 3-argument convenience constructor: no rejected value. */
  function FieldErrorWithoutValue(field: Option<string>, code: Option<string>, message: Option<string>): (e: FieldError)
    ensures e.rejectedValue.None?
    ensures e.field == field && e.code == code && e.message == message
  {
    FieldError(field, code, message, None)
  }

  /** `String.valueOf` of a nullable string or object, as string concatenation prints it. */
  function ShowString(s: Option<string>): string {
    match s
    case Some(t) => t
    case None => "null"
  }

  function ShowObject(o: Option<JavaObject>): string {
    match o
    case Some(obj) => ShowString(obj.toStringForm)
    case None => "null"
  }

  /** The record's `toString()`, in the `Name[component=value, ...]` form. */
  function FieldErrorText(e: FieldError): (s: string)
    ensures |s| > 17 && s[..17] == "FieldError[field=" && s[|s| - 1] == ']'
  {
    "FieldError[field=" + ShowString(e.field) + ", code=" + ShowString(e.code)
      + ", message=" + ShowString(e.message) + ", rejectedValue=" + ShowObject(e.rejectedValue) + "]"
  }

  function JoinFieldErrors(es: seq<FieldError>): string {
    if es == [] then ""
    else if |es| == 1 then FieldErrorText(es[0])
    else FieldErrorText(es[0]) + ", " + JoinFieldErrors(es[1..])
  }

  /** `List.toString()` of a list of field errors: `[e1, e2, ...]`. */
  function FieldErrorListText(es: seq<FieldError>): (s: string)
    ensures |s| >= 2 && s[0] == '[' && s[|s| - 1] == ']'
    ensures es == [] <==> s == "[]"
  {
    "[" + JoinFieldErrors(es) + "]"
  }

  /** `FieldError.FieldErrorBuilder`: four nullable fields, each set by its own setter. */
  class FieldErrorBuilder {
    var field: Option<string>
    var code: Option<string>
    var message: Option<string>
    var rejectedValue: Option<JavaObject>

    /** `FieldError.builder()`: every field starts null. */
    constructor ()
      ensures field.None? && code.None? && message.None? && rejectedValue.None?
    {
      field, code, message, rejectedValue := None, None, None, None;
    }

    method SetField(f: Option<string>)
      modifies this
      ensures field == f
      ensures code == old(code) && message == old(message) && rejectedValue == old(rejectedValue)
    {
      field := f;
    }

    method SetCode(c: Option<string>)
      modifies this
      ensures code == c
      ensures field == old(field) && message == old(message) && rejectedValue == old(rejectedValue)
    {
      code := c;
    }

    method SetMessage(m: Option<string>)
      modifies this
      ensures message == m
      ensures field == old(field) && code == old(code) && rejectedValue == old(rejectedValue)
    {
      message := m;
    }

    method SetRejectedValue(v: Option<JavaObject>)
      modifies this
      ensures rejectedValue == v
      ensures field == old(field) && code == old(code) && message == old(message)
    {
      rejectedValue := v;
    }

    /** `build()`: a record holding exactly the last value set for each field
        (null for a field never set); the builder itself is untouched. */
    method Build() returns (e: FieldError)
      ensures e.field == field && e.code == code && e.message == message
      ensures e.rejectedValue == rejectedValue
    {
      e := FieldError(field, code, message, rejectedValue);
    }
  }
}
