/** `BaseResponseAdapter`: the framework-neutral entry point that turns a
    thrown exception into an envelope and a status. */
module Adapter {
  import opened Wrappers
  import opened Codes
  import opened Responses
  import opened Exceptions
  import opened Mapper

  /** `getHttpStatusFromException(exception)`: the code's status for the
      library's exceptions, 500 for anything else. */
  function StatusFromException(t: Throwable): (s: int)
    ensures IsClientError(t) || IsServerError(t) || IsBusinessError(t) ==> s == GetHttpStatus(t)
    ensures !IsClientError(t) && !IsServerError(t) && !IsBusinessError(t) ==> s == 500
  {
    if IsClientError(t) then GetHttpStatus(t)
    else if IsServerError(t) then GetHttpStatus(t)
    else if IsBusinessError(t) then GetHttpStatus(t)
    else 500
  }

  /** `handleException(exception)` as written: the argument's static type is
      `Throwable`, so the call binds to `toResponse(Throwable)` and every
      exception becomes the generic internal-error envelope. */
  function HandleException(t: Throwable, now: Instant): (r: Result<Response<NoData>, Rejection>)
    ensures r.Ok? && r.value.status == 500 && r.value.error == Some(InternalApiError())
    ensures r.value.error.value.code == Some("INTERNAL_ERROR")
  {
    MapThrowable(t, now)
  }

  /** The handler as its documentation describes it ("with proper HTTP
      status"): dispatch on the exception's category, as
      `toResponse(Exception)` does. */
  function HandleExceptionDispatching(t: Throwable, now: Instant): (r: Result<Response<NoData>, Rejection>)
    requires WellFormed(t)
    ensures r.Ok? ==> r.value.status == StatusFromException(t)
    ensures t.Typed? && 400 <= GetHttpStatus(t) < 600 && t.message.Some? ==>
              r.Ok? && r.value.error.Some? && r.value.error.value.code == Some(GetCode(t).name)
    ensures t.Untyped? ==> r == HandleException(t, now)
  {
    MapException(t, now)
  }

  /** The discrepancy: for any of the library's exceptions whose code is not
      500, the envelope from `handleException` and the status from
      `getHttpStatusFromException` disagree. */
  lemma HandleExceptionDisagreesWithStatus(t: Throwable, now: Instant)
    requires t.Typed? && GetHttpStatus(t) != 500
    ensures HandleException(t, now).value.status != StatusFromException(t)
  {
  }

  /** A concrete instance: a client exception for `RESOURCE_NOT_FOUND` has
      status 404, but `handleException` answers 500 with `INTERNAL_ERROR`,
      while the dispatching handler answers 404 with `RESOURCE_NOT_FOUND`. */
  lemma ResourceNotFoundHandled(now: Instant)
    ensures var t := ClientErrorsBaseException(AsCode(ResourceNotFound), Some("User not found"), None, NullDetails);
            && StatusFromException(t) == 404
            && HandleException(t, now).value.status == 500
            && HandleException(t, now).value.error.value.code == Some("INTERNAL_ERROR")
            && HandleExceptionDispatching(t, now).Ok?
            && HandleExceptionDispatching(t, now).value.status == 404
            && HandleExceptionDispatching(t, now).value.error.value.code == Some("RESOURCE_NOT_FOUND")
  {
  }
}
