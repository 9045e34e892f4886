/** `APIError`: the error payload of a failed response (code, message,
    field errors, details), its convenience constructors and its builder. */
module ApiErrors {
  import opened Wrappers
  import opened FieldErrors

  /** The record `APIError(code, message, fieldErrors, details)`. The canonical
      constructor checks and normalises nothing: every component may be null,
      `fieldErrors` included. */
  datatype ApiError = ApiError(
    code: Option<string>,
    message: Option<string>,
    fieldErrors: Option<seq<FieldError>>,
    details: Option<string>)

  /** `new APIError(code, message)`: an empty field-error list and no details. */
  function SimpleError(code: Option<string>, message: Option<string>): (e: ApiError)
    ensures e.code == code && e.message == message
    ensures e.fieldErrors == Some([]) && e.details.None?
  {
    ApiError(code, message, Some([]), None)
  }

  /** `new APIError(code, message, List<FieldError>)`: the list is kept exactly
      as given, null included; no details. */
  function ValidationError(code: Option<string>, message: Option<string>, fieldErrors: Option<seq<FieldError>>): (e: ApiError)
    ensures e.code == code && e.message == message
    ensures e.fieldErrors == fieldErrors && e.details.None?
  {
    ApiError(code, message, fieldErrors, None)
  }

  /** `new APIError(code, message, String details)`: an empty field-error list
      and the given details. */
  function DetailedError(code: Option<string>, message: Option<string>, details: Option<string>): (e: ApiError)
    ensures e.code == code && e.message == message
    ensures e.fieldErrors == Some([]) && e.details == details
  {
    ApiError(code, message, Some([]), details)
  }

  /** Of the three convenience constructors, only the list one can leave
      `fieldErrors` null, and only when handed a null list. */
  lemma ConvenienceConstructorsFieldErrors(code: Option<string>, message: Option<string>,
                                           fieldErrors: Option<seq<FieldError>>, details: Option<string>)
    ensures SimpleError(code, message).fieldErrors.Some?
    ensures DetailedError(code, message, details).fieldErrors.Some?
    ensures ValidationError(code, message, fieldErrors).fieldErrors.None? <==> fieldErrors.None?
  {
  }

  // ---------------------------------------------------------------------
  // APIErrorBuilder
  // ---------------------------------------------------------------------

  /** The accumulator after `fieldError(e)`: a fresh list when none was set,
      then `e` appended at the end. */
  function AppendFieldError(acc: Option<seq<FieldError>>, e: FieldError): (r: Option<seq<FieldError>>)
    ensures r.Some? && |r.value| == |acc.GetOr([])| + 1
    ensures r.value[..|r.value| - 1] == acc.GetOr([]) && r.value[|r.value| - 1] == e
  {
    Some(acc.GetOr([]) + [e])
  }

  /** The accumulator after `fieldError(e)` for each `e` of `es`, in order. */
  function AppendAll(acc: Option<seq<FieldError>>, es: seq<FieldError>): Option<seq<FieldError>>
    decreases |es|
  {
    if es == [] then acc else AppendAll(AppendFieldError(acc, es[0]), es[1..])
  }

  /** The list `build()` puts in the record: an unset accumulator becomes empty. */
  function BuiltFieldErrors(acc: Option<seq<FieldError>>): (r: seq<FieldError>)
    ensures acc.Some? ==> r == acc.value
    ensures acc.None? ==> r == []
  {
    acc.GetOr([])
  }

  /** Appending one by one keeps everything already accumulated, adds each
      entry at the end, in call order, and loses none. */
  lemma {:induction false} AppendAllAppends(acc: Option<seq<FieldError>>, es: seq<FieldError>)
    ensures es == [] ==> AppendAll(acc, es) == acc
    ensures es != [] ==> AppendAll(acc, es) == Some(acc.GetOr([]) + es)
    decreases |es|
  {
    if es != [] {
      var next := AppendFieldError(acc, es[0]);
      AppendAllAppends(next, es[1..]);
      if es[1..] == [] {
        assert es == [es[0]];
      } else {
        assert next.GetOr([]) + es[1..] == acc.GetOr([]) + es;
      }
    }
  }

  /** After `n` calls of `fieldError` on a fresh builder, the built error holds
      exactly those `n` entries, in call order (none at all when `n` is 0). */
  lemma FreshBuilderFieldErrors(es: seq<FieldError>)
    ensures BuiltFieldErrors(AppendAll(None, es)) == es
  {
    AppendAllAppends(None, es);
  }

  /** `APIError.APIErrorBuilder`: nullable code, message, accumulator and
      details, updated by setters and `fieldError` appends. */
  class ApiErrorBuilder {
    var code: Option<string>
    var message: Option<string>
    var fieldErrors: Option<seq<FieldError>>
    var details: Option<string>

    /** `APIError.builder()`: everything unset. */
    constructor ()
      ensures code.None? && message.None? && fieldErrors.None? && details.None?
    {
      code, message, fieldErrors, details := None, None, None, None;
    }

    method SetCode(c: Option<string>)
      modifies this
      ensures code == c
      ensures message == old(message) && fieldErrors == old(fieldErrors) && details == old(details)
    {
      code := c;
    }

    method SetMessage(m: Option<string>)
      modifies this
      ensures message == m
      ensures code == old(code) && fieldErrors == old(fieldErrors) && details == old(details)
    {
      message := m;
    }

    /** `fieldErrors(list)`: replaces the accumulator wholesale. */
    method SetFieldErrors(list: Option<seq<FieldError>>)
      modifies this
      ensures fieldErrors == list
      ensures code == old(code) && message == old(message) && details == old(details)
    {
      fieldErrors := list;
    }

    /** `fieldError(FieldError)`: appends one entry at the end. */
    method AddFieldError(e: FieldError)
      modifies this
      ensures fieldErrors == AppendFieldError(old(fieldErrors), e)
      ensures code == old(code) && message == old(message) && details == old(details)
    {
      if fieldErrors.None? {
        fieldErrors := Some([]);
      }
      fieldErrors := Some(fieldErrors.value + [e]);
    }

    /** `fieldError(field, code, message)`: appends an entry without a rejected value. */
    method AddFieldErrorOf(field: Option<string>, fieldCode: Option<string>, fieldMessage: Option<string>)
      modifies this
      ensures fieldErrors == AppendFieldError(old(fieldErrors), FieldErrorWithoutValue(field, fieldCode, fieldMessage))
      ensures code == old(code) && message == old(message) && details == old(details)
    {
      AddFieldError(FieldErrorWithoutValue(field, fieldCode, fieldMessage));
    }

    /** `fieldError(field, code, message, rejectedValue)`. */
    method AddFieldErrorWithValue(field: Option<string>, fieldCode: Option<string>, fieldMessage: Option<string>,
                                  rejectedValue: Option<JavaObject>)
      modifies this
      ensures fieldErrors == AppendFieldError(old(fieldErrors), FieldError(field, fieldCode, fieldMessage, rejectedValue))
      ensures code == old(code) && message == old(message) && details == old(details)
    {
      AddFieldError(FieldError(field, fieldCode, fieldMessage, rejectedValue));
    }

    method SetDetails(d: Option<string>)
      modifies this
      ensures details == d
      ensures code == old(code) && message == old(message) && fieldErrors == old(fieldErrors)
    {
      details := d;
    }

    /** `build()`: code, message and details copied unchanged; the field-error
        list is never null — an unset accumulator becomes the empty list. */
    method Build() returns (e: ApiError)
      ensures e.code == code && e.message == message && e.details == details
      ensures e.fieldErrors.Some?
      ensures fieldErrors.Some? ==> e.fieldErrors == fieldErrors
      ensures fieldErrors.None? ==> e.fieldErrors == Some([])
    {
      var finalFieldErrors := if fieldErrors.Some? then fieldErrors.value else [];
      e := ApiError(code, message, Some(finalFieldErrors), details);
    }
  }
}
