/** `ExceptionResponseMapper`: turns an exception of the taxonomy into an error
    envelope. The local `APIErrorBuilder` chains of the source are written as
    direct `ApiError` values (what `build()` returns for them). */
module Mapper {
  import opened Wrappers
  import opened JavaStrings
  import opened Codes
  import opened FieldErrors
  import opened ApiErrors
  import opened Responses
  import opened Exceptions

  /** `convertDetailsToString(details)`: null stays null, a `String` is kept,
      anything else is its `toString()`. */
  function ConvertDetailsToString(d: Details): (s: Option<string>)
    ensures d.NullDetails? ==> s.None?
    ensures d.StringDetails? ==> s == Some(d.text)
    ensures d.LongDetails? ==> s == Some(LongToString(d.value))
    ensures d.FieldErrorListDetails? ==> s == Some(FieldErrorListText(d.errors))
    ensures d.ObjectDetails? ==> s == d.instance.toStringForm
  {
    match d
    case NullDetails => None
    case StringDetails(text) => Some(text)
    case LongDetails(n) => Some(LongToString(n))
    case FieldErrorListDetails(errors) => Some(FieldErrorListText(errors))
    case ObjectDetails(instance) => instance.toStringForm
  }

  // ---------------------------------------------------------------------
  // The error payloads of the three typed overloads
  // ---------------------------------------------------------------------

  /** The `APIError` built by `toResponse(ClientErrorsBaseException)`: a
      validation exception contributes its field errors when the list is
      non-empty and never its details; any other client exception contributes
      its details' string form and no field errors. */
  function ClientApiError(t: Throwable): (e: ApiError)
    requires IsClientError(t) && WellFormed(t)
    ensures e.code == Some(GetCode(t).name) && e.message == t.message
    ensures t.subclass == Validation ==>
              e.details.None?
              && e.fieldErrors == Some(ValidationFieldErrors(t).GetOr([]))
    ensures t.subclass != Validation ==>
              e.fieldErrors == Some([]) && e.details == ConvertDetailsToString(GetDetails(t))
  {
    if t.subclass == Validation then
      var listed := ValidationFieldErrors(t);
      if listed.Some? && listed.value != [] then ValidationError(Some(t.code.name), t.message, listed)
      else SimpleError(Some(t.code.name), t.message)
    else if t.details.NullDetails? then SimpleError(Some(t.code.name), t.message)
    else DetailedError(Some(t.code.name), t.message, ConvertDetailsToString(t.details))
  }

  /** The `APIError` built by `toResponse(ServerErrorsBaseException)`. */
  function ServerApiError(t: Throwable): (e: ApiError)
    requires IsServerError(t)
    ensures e.code == Some(GetCode(t).name) && e.message == t.message
    ensures e.fieldErrors == Some([]) && e.details == ConvertDetailsToString(GetDetails(t))
  {
    DetailedError(Some(t.code.name), t.message, ConvertDetailsToString(t.details))
  }

  /** The `APIError` built by `toResponse(BusinessLogicBaseException)`. */
  function BusinessApiError(t: Throwable): (e: ApiError)
    requires IsBusinessError(t)
    ensures e.code == Some(GetCode(t).name) && e.message == t.message
    ensures e.fieldErrors == Some([]) && e.details == ConvertDetailsToString(GetDetails(t))
  {
    DetailedError(Some(t.code.name), t.message, ConvertDetailsToString(t.details))
  }

  // ---------------------------------------------------------------------
  // The four toResponse overloads and the dispatch
  // ---------------------------------------------------------------------

  /** `toResponse(ClientErrorsBaseException)` (also `toResponse()` on the
      exception and `APIResponse.fromException`): `APIResponse.error(apiError,
      code, message)`, which fails when the code is not 4xx/5xx or the message
      is null. */
  function MapClient(t: Throwable, now: Instant): (r: Result<Response<NoData>, Rejection>)
    requires IsClientError(t) && WellFormed(t)
    ensures r.Ok? <==> 400 <= GetHttpStatus(t) < 600 && t.message.Some?
    ensures r.Ok? ==> r.value.status == GetHttpStatus(t) && r.value.data.None?
                           && r.value.error == Some(ClientApiError(t))
                           && r.value.message == t.message.value && r.value.timestamp == now
    ensures !(400 <= GetHttpStatus(t) < 600) ==> r == Err(NonErrorStatus(GetHttpStatus(t)))
    ensures 400 <= GetHttpStatus(t) < 600 && t.message.None? ==> r == Err(NullMessage)
  {
    ErrorResponseWithMessage(Some(ClientApiError(t)), t.code, t.message, now)
  }

  /** `toResponse(ServerErrorsBaseException)` (also `toResponse()` on the
      exception and `APIResponse.fromException`); the message is passed
      through unchanged. */
  function MapServer(t: Throwable, now: Instant): (r: Result<Response<NoData>, Rejection>)
    requires IsServerError(t)
    ensures r.Ok? <==> 400 <= GetHttpStatus(t) < 600 && t.message.Some?
    ensures r.Ok? ==> r.value.status == GetHttpStatus(t) && r.value.data.None?
                           && r.value.error == Some(ServerApiError(t))
                           && r.value.message == t.message.value && r.value.timestamp == now
    ensures !(400 <= GetHttpStatus(t) < 600) ==> r == Err(NonErrorStatus(GetHttpStatus(t)))
    ensures 400 <= GetHttpStatus(t) < 600 && t.message.None? ==> r == Err(NullMessage)
  {
    ErrorResponseWithMessage(Some(ServerApiError(t)), t.code, t.message, now)
  }

  /** `toResponse(BusinessLogicBaseException)` (also `toResponse()` on the
      exception and `APIResponse.fromException`). */
  function MapBusiness(t: Throwable, now: Instant): (r: Result<Response<NoData>, Rejection>)
    requires IsBusinessError(t)
    ensures r.Ok? <==> 400 <= GetHttpStatus(t) < 600 && t.message.Some?
    ensures r.Ok? ==> r.value.status == GetHttpStatus(t) && r.value.data.None?
                           && r.value.error == Some(BusinessApiError(t))
                           && r.value.message == t.message.value && r.value.timestamp == now
    ensures !(400 <= GetHttpStatus(t) < 600) ==> r == Err(NonErrorStatus(GetHttpStatus(t)))
    ensures 400 <= GetHttpStatus(t) < 600 && t.message.None? ==> r == Err(NullMessage)
  {
    ErrorResponseWithMessage(Some(BusinessApiError(t)), t.code, t.message, now)
  }

  /** `getDefaultInternalErrorCode()`. */
  function DefaultInternalErrorCode(): (c: Code)
    ensures c.name == "INTERNAL_ERROR" && c.httpStatus == 500
  {
    AsCode(InternalError)
  }

  /** The error payload of the fallback. */
  function InternalApiError(): (e: ApiError)
    ensures e == ApiError(Some("INTERNAL_ERROR"), Some("An unexpected error occurred"), Some([]), None)
  {
    SimpleError(Some(DefaultInternalErrorCode().name), Some("An unexpected error occurred"))
  }

  /** `toResponse(Throwable)`: the generic internal-error envelope, whatever
      the throwable. It never fails. */
  function MapThrowable(t: Throwable, now: Instant): (r: Result<Response<NoData>, Rejection>)
    ensures r == Ok(Response(500, None, Some(InternalApiError()), "Internal server error", now))
  {
    ErrorResponseWithMessage(Some(InternalApiError()), DefaultInternalErrorCode(), Some("Internal server error"), now)
  }

  /** `toResponse(Exception)`: client, then server, then business, then the
      fallback. */
  function MapException(t: Throwable, now: Instant): (r: Result<Response<NoData>, Rejection>)
    requires WellFormed(t)
    ensures IsClientError(t) ==> r == MapClient(t, now)
    ensures IsServerError(t) ==> r == MapServer(t, now)
    ensures IsBusinessError(t) ==> r == MapBusiness(t, now)
    ensures t.Untyped? ==> r == MapThrowable(t, now)
  {
    if IsClientError(t) then MapClient(t, now)
    else if IsServerError(t) then MapServer(t, now)
    else if IsBusinessError(t) then MapBusiness(t, now)
    else MapThrowable(t, now)
  }

  // ---------------------------------------------------------------------
  // Properties
  // ---------------------------------------------------------------------

  /** What every typed exception maps to: the envelope carries the code's
      status and the exception's message, the payload carries the code's
      name; and the mapping is partial: a code outside 4xx/5xx is an
      IllegalArgumentException, a null message a NullPointerException. */
  lemma TypedMapping(t: Throwable, now: Instant)
    requires t.Typed? && WellFormed(t)
    ensures var r := MapException(t, now);
            && (r.Ok? <==> 400 <= GetHttpStatus(t) < 600 && t.message.Some?)
            && (r.Ok? ==> r.value.status == GetHttpStatus(t) && r.value.message == t.message.value
                          && r.value.error.Some? && r.value.error.value.code == Some(GetCode(t).name)
                          && r.value.error.value.message == t.message
                          && r.value.error.value.fieldErrors.Some?)
            && (!(400 <= GetHttpStatus(t) < 600) ==> r == Err(NonErrorStatus(GetHttpStatus(t))) && r.reason.Thrown() == IllegalArgument)
            && (400 <= GetHttpStatus(t) < 600 && t.message.None? ==> r == Err(NullMessage) && r.reason.Thrown() == NullPointer)
  {
    CategoriesPartition(t);
  }

  /** A validation exception built with a field-error list reports exactly
      that list, in order, and no details; a null or empty list, or one of the
      other two constructors, gives an empty list. */
  lemma ValidationFieldErrorsMapped(code: Code, message: Option<string>, fieldErrors: Option<seq<FieldError>>, cause: Option<Throwable>)
    ensures ClientApiError(ValidationExceptionWithFieldErrors(code, message, fieldErrors))
              == ApiError(Some(code.name), message, Some(fieldErrors.GetOr([])), None)
    ensures ClientApiError(NewValidationException(code, message)) == ApiError(Some(code.name), message, Some([]), None)
    ensures ClientApiError(ValidationExceptionWithCause(code, message, cause)) == ApiError(Some(code.name), message, Some([]), None)
  {
  }

  /** A retry-after hint reaches the payload as the decimal string of the
      number of seconds (it reads back as the same number), for the client
      exception and the server exception alike. */
  lemma RetryAfterMapped(code: Code, message: Option<string>, n: Long)
    ensures var e := ClientApiError(TooManyRequestsExceptionWithRetry(code, message, n));
            e.details == Some(LongToString(n)) && SignedDecimalValue(e.details.value) == n
            && e.fieldErrors == Some([])
    ensures var e := ServerApiError(ServiceUnavailableExceptionWithRetry(code, message, n));
            e.details == Some(LongToString(n)) && SignedDecimalValue(e.details.value) == n
            && e.fieldErrors == Some([])
  {
    LongToStringRoundTrip(n);
  }

  /** Details of a non-validation exception surface as their string form;
      null details leave the payload's details null. */
  lemma DetailsMapped(code: Code, message: Option<string>, cause: Option<Throwable>, text: string)
    ensures ClientApiError(ClientErrorsBaseException(code, message, cause, StringDetails(text))).details == Some(text)
    ensures ServerApiError(ServerErrorsBaseException(code, message, cause, StringDetails(text))).details == Some(text)
    ensures BusinessApiError(BusinessLogicBaseException(code, message, cause, StringDetails(text))).details == Some(text)
    ensures ClientApiError(ClientErrorsBaseException(code, message, cause, NullDetails)).details.None?
    ensures ServerApiError(ServerErrorsBaseException(code, message, cause, NullDetails)).details.None?
    ensures BusinessApiError(BusinessLogicBaseException(code, message, cause, NullDetails)).details.None?
  {
  }

  /** The fallback does not look at its argument. */
  lemma MapThrowableIgnoresInput(t1: Throwable, t2: Throwable, now: Instant)
    ensures MapThrowable(t1, now) == MapThrowable(t2, now)
    ensures MapThrowable(t1, now).Ok? && MapThrowable(t1, now).value.status == 500
  {
  }
}
