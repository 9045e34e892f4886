/** The exception taxonomy: the three base classes (client, server, business
    logic), the subclasses whose getters compute something (validation, too
    many requests, service unavailable) and every other throwable, as one
    tagged union. */
module Exceptions {
  import opened Wrappers
  import opened JavaStrings
  import opened Codes
  import opened FieldErrors

  /** The `Object details` slot of the base classes, by runtime class. */
  datatype Details =
    | NullDetails
    | StringDetails(text: string)
    | LongDetails(value: Long)
    | FieldErrorListDetails(errors: seq<FieldError>)
    | ObjectDetails(instance: JavaObject)

  /** Which base class an exception extends. */
  datatype Category = Client | Server | Business

  /** The runtime class below the base class. The field-holder subclasses
      (`ResourceNotFoundException`, `DatabaseException`, ...) add nothing the
      library reads, so they are `Base`. */
  datatype Subclass = Base | Validation | TooManyRequests | ServiceUnavailable

  datatype Throwable =
    | Typed(category: Category, subclass: Subclass, code: Code, message: Option<string>,
            cause: Option<Throwable>, details: Details)
    | Untyped(message: Option<string>, cause: Option<Throwable>)

  /** What the constructors of each class make possible: the three subclasses
      sit under their own base class, and their details are what their
      constructors can store. */
  predicate WellFormed(t: Throwable) {
    match t
    case Untyped(_, _) => true
    case Typed(category, subclass, _, _, _, details) =>
      match subclass
      case Base => true
      case Validation => category == Client && (details.NullDetails? || details.FieldErrorListDetails?)
      case TooManyRequests => category == Client && (details.NullDetails? || details.LongDetails?)
      case ServiceUnavailable => category == Server && (details.NullDetails? || details.LongDetails?)
  }

  // ---------------------------------------------------------------------
  // Category tests (ExceptionResponseMapper.is*Error)
  // ---------------------------------------------------------------------

  /** `instanceof ClientErrorsBaseException`: `ValidationException` and
      `TooManyRequestsException` are client errors. */
  predicate IsClientError(t: Throwable)
    ensures WellFormed(t) && t.Typed? && (t.subclass == Validation || t.subclass == TooManyRequests) ==>
              IsClientError(t)
    ensures IsClientError(t) ==> t.Typed?
  {
    t.Typed? && t.category == Client
  }

  /** `instanceof ServerErrorsBaseException`: `ServiceUnavailableException`
      is a server error. */
  predicate IsServerError(t: Throwable)
    ensures WellFormed(t) && t.Typed? && t.subclass == Subclass.ServiceUnavailable ==> IsServerError(t)
    ensures IsServerError(t) ==> t.Typed? && !IsClientError(t)
  {
    t.Typed? && t.category == Server
  }

  /** `instanceof BusinessLogicBaseException`: no subclass of the three
      modelled ones is a business error, and no client or server error is. */
  predicate IsBusinessError(t: Throwable)
    ensures WellFormed(t) && IsBusinessError(t) ==> t.Typed? && t.subclass == Base
    ensures IsBusinessError(t) ==> t.Typed? && !IsClientError(t) && !IsServerError(t)
  {
    t.Typed? && t.category == Business
  }

  /** A throwable belongs to at most one category, and to one exactly when it
      is one of the library's exceptions. */
  lemma CategoriesPartition(t: Throwable)
    ensures !(IsClientError(t) && IsServerError(t))
    ensures !(IsClientError(t) && IsBusinessError(t))
    ensures !(IsServerError(t) && IsBusinessError(t))
    ensures IsClientError(t) || IsServerError(t) || IsBusinessError(t) <==> t.Typed?
  {
  }

  // ---------------------------------------------------------------------
  // Getters shared by the three base classes
  // ---------------------------------------------------------------------

  /** `getCode()`: the code the exception was constructed with. */
  function GetCode(t: Throwable): (c: Code)
    requires t.Typed?
    ensures c == t.code
  {
    t.code
  }

  /** `getDetails()`: the details the exception was constructed with. */
  function GetDetails(t: Throwable): (d: Details)
    requires t.Typed?
    ensures d == t.details
  {
    t.details
  }

  /** `getHttpStatus()`: the status of the exception's code. */
  function GetHttpStatus(t: Throwable): (s: int)
    requires t.Typed?
    ensures s == GetCode(t).httpStatus
  {
    t.code.httpStatus
  }

  // ---------------------------------------------------------------------
  // Base-class constructors. Each Java class has four: (code, message),
  // (code, message, cause), (code, message, details) and
  // (code, message, cause, details); the shorter ones pass null for what
  // they lack, so one function per class covers all four.
  // ---------------------------------------------------------------------

  function ClientErrorsBaseException(code: Code, message: Option<string>, cause: Option<Throwable>, details: Details): (t: Throwable)
    ensures IsClientError(t) && WellFormed(t) && t.subclass == Base
    ensures GetCode(t) == code && GetDetails(t) == details && GetHttpStatus(t) == code.httpStatus
    ensures t.message == message && t.cause == cause
  {
    Typed(Client, Base, code, message, cause, details)
  }

  function ServerErrorsBaseException(code: Code, message: Option<string>, cause: Option<Throwable>, details: Details): (t: Throwable)
    ensures IsServerError(t) && WellFormed(t) && t.subclass == Base
    ensures GetCode(t) == code && GetDetails(t) == details && GetHttpStatus(t) == code.httpStatus
    ensures t.message == message && t.cause == cause
  {
    Typed(Server, Base, code, message, cause, details)
  }

  function BusinessLogicBaseException(code: Code, message: Option<string>, cause: Option<Throwable>, details: Details): (t: Throwable)
    ensures IsBusinessError(t) && WellFormed(t) && t.subclass == Base
    ensures GetCode(t) == code && GetDetails(t) == details && GetHttpStatus(t) == code.httpStatus
    ensures t.message == message && t.cause == cause
  {
    Typed(Business, Base, code, message, cause, details)
  }

  /** Any throwable outside the taxonomy. */
  function OtherThrowable(message: Option<string>, cause: Option<Throwable>): (t: Throwable)
    ensures !IsClientError(t) && !IsServerError(t) && !IsBusinessError(t)
  {
    Untyped(message, cause)
  }

  // ---------------------------------------------------------------------
  // ValidationException
  // ---------------------------------------------------------------------

  /** `getFieldErrors()`: the details seen as a field-error list (null when
      none was given). */
  function ValidationFieldErrors(t: Throwable): (r: Option<seq<FieldError>>)
    requires WellFormed(t) && t.Typed? && t.subclass == Validation
    ensures r.Some? <==> GetDetails(t).FieldErrorListDetails?
    ensures FieldErrorListAsDetails(r) == GetDetails(t)
  {
    match t.details
    case FieldErrorListDetails(errors) => Some(errors)
    case NullDetails => None
  }

  /** The details a `List<FieldError>` argument becomes (a null list stores null). */
  function FieldErrorListAsDetails(fieldErrors: Option<seq<FieldError>>): Details {
    match fieldErrors
    case Some(errors) => FieldErrorListDetails(errors)
    case None => NullDetails
  }

  /** `new ValidationException(code, message)`. */
  function NewValidationException(code: Code, message: Option<string>): (t: Throwable)
    ensures IsClientError(t) && WellFormed(t) && t.subclass == Validation
    ensures GetCode(t) == code && t.message == message && t.cause.None?
    ensures ValidationFieldErrors(t).None?
  {
    Typed(Client, Validation, code, message, None, NullDetails)
  }

  /** `new ValidationException(code, message, fieldErrors)`. */
  function ValidationExceptionWithFieldErrors(code: Code, message: Option<string>, fieldErrors: Option<seq<FieldError>>): (t: Throwable)
    ensures IsClientError(t) && WellFormed(t) && t.subclass == Validation
    ensures GetCode(t) == code && t.message == message && t.cause.None?
    ensures ValidationFieldErrors(t) == fieldErrors
  {
    Typed(Client, Validation, code, message, None, FieldErrorListAsDetails(fieldErrors))
  }

  /** `new ValidationException(code, message, cause)`. */
  function ValidationExceptionWithCause(code: Code, message: Option<string>, cause: Option<Throwable>): (t: Throwable)
    ensures IsClientError(t) && WellFormed(t) && t.subclass == Validation
    ensures GetCode(t) == code && t.message == message && t.cause == cause
    ensures ValidationFieldErrors(t).None?
  {
    Typed(Client, Validation, code, message, cause, NullDetails)
  }

  // ---------------------------------------------------------------------
  // TooManyRequestsException and ServiceUnavailableException
  // ---------------------------------------------------------------------

  /** `getRetryAfterSeconds()` of both classes: the details when they are a
      `Long`, null otherwise. */
  function RetryAfterSeconds(t: Throwable): (r: Option<Long>)
    requires t.Typed? && (t.subclass == TooManyRequests || t.subclass == Subclass.ServiceUnavailable)
    ensures r.Some? <==> GetDetails(t).LongDetails?
    ensures r.Some? ==> GetDetails(t) == LongDetails(r.value)
  {
    match t.details
    case LongDetails(n) => Some(n)
    case _ => None
  }

  /** `new TooManyRequestsException(code, message)`. */
  function NewTooManyRequestsException(code: Code, message: Option<string>): (t: Throwable)
    ensures IsClientError(t) && WellFormed(t) && t.subclass == TooManyRequests
    ensures GetCode(t) == code && t.message == message && t.cause.None?
    ensures RetryAfterSeconds(t).None?
  {
    Typed(Client, TooManyRequests, code, message, None, NullDetails)
  }

  /** `new TooManyRequestsException(code, message, long retryAfterSeconds)`: the
      `long` is boxed into the details. */
  function TooManyRequestsExceptionWithRetry(code: Code, message: Option<string>, retryAfterSeconds: Long): (t: Throwable)
    ensures IsClientError(t) && WellFormed(t) && t.subclass == TooManyRequests
    ensures GetCode(t) == code && t.message == message && t.cause.None?
    ensures RetryAfterSeconds(t) == Some(retryAfterSeconds)
  {
    Typed(Client, TooManyRequests, code, message, None, LongDetails(retryAfterSeconds))
  }

  /** `new TooManyRequestsException(code, message, cause)`. */
  function TooManyRequestsExceptionWithCause(code: Code, message: Option<string>, cause: Option<Throwable>): (t: Throwable)
    ensures IsClientError(t) && WellFormed(t) && t.subclass == TooManyRequests
    ensures GetCode(t) == code && t.message == message && t.cause == cause
    ensures RetryAfterSeconds(t).None?
  {
    Typed(Client, TooManyRequests, code, message, cause, NullDetails)
  }

  /** `new ServiceUnavailableException(code, message)`. */
  function NewServiceUnavailableException(code: Code, message: Option<string>): (t: Throwable)
    ensures IsServerError(t) && WellFormed(t) && t.subclass == Subclass.ServiceUnavailable
    ensures GetCode(t) == code && t.message == message && t.cause.None?
    ensures RetryAfterSeconds(t).None?
  {
    Typed(Server, Subclass.ServiceUnavailable, code, message, None, NullDetails)
  }

  /** `new ServiceUnavailableException(code, message, long retryAfterSeconds)`. */
  function ServiceUnavailableExceptionWithRetry(code: Code, message: Option<string>, retryAfterSeconds: Long): (t: Throwable)
    ensures IsServerError(t) && WellFormed(t) && t.subclass == Subclass.ServiceUnavailable
    ensures GetCode(t) == code && t.message == message && t.cause.None?
    ensures RetryAfterSeconds(t) == Some(retryAfterSeconds)
  {
    Typed(Server, Subclass.ServiceUnavailable, code, message, None, LongDetails(retryAfterSeconds))
  }

  /** `new ServiceUnavailableException(code, message, cause)`. */
  function ServiceUnavailableExceptionWithCause(code: Code, message: Option<string>, cause: Option<Throwable>): (t: Throwable)
    ensures IsServerError(t) && WellFormed(t) && t.subclass == Subclass.ServiceUnavailable
    ensures GetCode(t) == code && t.message == message && t.cause == cause
    ensures RetryAfterSeconds(t).None?
  {
    Typed(Server, Subclass.ServiceUnavailable, code, message, cause, NullDetails)
  }
}
