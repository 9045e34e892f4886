/** Status codes: the open `APICode` capability (a name, an HTTP status and a
    derived default message) and the fixed `BaseAPICode` table. */
module Codes {
  import opened Wrappers
  import JavaStrings

  /** Any `APICode` implementation. `messageOverride` is present when the
      implementation overrides `getDefaultMessage()`; the built-in constants
      never do. */
  datatype Code = Code(name: string, httpStatus: int, messageOverride: Option<string>)

  /** The default-message transform of `APICode.getDefaultMessage()` and of the
      private `APIResponse.getDefaultMessage(code)`: lower-case the name, then
      replace every '_' with a space. */
  function NameToMessage(name: string): (m: string)
    ensures |m| == |name|
    ensures forall i :: 0 <= i < |m| ==> m[i] != '_' && !JavaStrings.IsUpper(m[i])
    ensures forall i :: 0 <= i < |m| ==>
              m[i] == (if name[i] == '_' then ' ' else JavaStrings.LowerChar(name[i]))
  {
    JavaStrings.Replace(JavaStrings.ToLowerCase(name), '_', ' ')
  }

  /** Applying the transform to its own output changes nothing. */
  lemma NameToMessageIdempotent(name: string)
    ensures NameToMessage(NameToMessage(name)) == NameToMessage(name)
  {
  }

  /** `getDefaultMessage()`: the override when the implementation has one,
      otherwise the name transform. */
  function DefaultMessage(c: Code): (m: string)
    ensures c.messageOverride.None? ==> m == NameToMessage(c.name) && |m| == |c.name|
    ensures c.messageOverride.Some? ==> m == c.messageOverride.value
  {
    match c.messageOverride
    case Some(text) => text
    case None => NameToMessage(c.name)
  }

  /** `getFormattedMessage(String)`: the default implementation hands its
      argument back untouched (null included). */
  function FormattedMessage(c: Code, message: Option<string>): (r: Option<string>)
    ensures r == message
  {
    message
  }

  // ---------------------------------------------------------------------
  // BaseAPICode
  // ---------------------------------------------------------------------

  /** The constants of `BaseAPICode`, in declaration order. */
  datatype BaseCode =
    | Success
    | ResourceCreated
    | ResourceUpdated
    | ResourceDeleted
    | RequestAccepted
    | UserSuccess
    | UserCreated
    | UserNotFound
    | UserAlreadyExists
    | UserAccountIssue
    | AuthenticationFailed
    | AuthorizationFailed
    | ConcurrentModification
    | VersionConflict
    | BusinessRuleViolation
    | InvalidState
    | OperationNotAllowed
    | QuotaExceeded
    | DomainValidationFailed
    | BadRequest
    | ValidationFailed
    | InvalidParameter
    | MalformedRequest
    | MissingParameter
    | TypeMismatch
    | InvalidInput
    | MissingField
    | FieldLengthIssue
    | InvalidFormat
    | OutOfRange
    | ResourceNotFound
    | ResourceExists
    | ResourceConflict
    | AccountDisabled
    | AccountLocked
    | NoActionTaken
    | RequestNotProcessable
    | Unauthenticated
    | InvalidCredentials
    | AccountIssue
    | Forbidden
    | RoleRestricted
    | ScopeRestricted
    | RateLimited
    | ConcurrencyLimit
    | InternalError
    | ExternalServiceFailure
    | DatabaseError
    | ExternalServiceTimeout
    | ServiceUnavailable
    | NotImplemented
    | GatewayTimeout

  /** `Enum.name()`: the constant's identifier as written in the source
      (never empty). */
  function Name(c: BaseCode): (s: string)
    ensures |s| > 0
  {
    match c
    case Success => "SUCCESS"
    case ResourceCreated => "RESOURCE_CREATED"
    case ResourceUpdated => "RESOURCE_UPDATED"
    case ResourceDeleted => "RESOURCE_DELETED"
    case RequestAccepted => "REQUEST_ACCEPTED"
    case UserSuccess => "USER_SUCCESS"
    case UserCreated => "USER_CREATED"
    case UserNotFound => "USER_NOT_FOUND"
    case UserAlreadyExists => "USER_ALREADY_EXISTS"
    case UserAccountIssue => "USER_ACCOUNT_ISSUE"
    case AuthenticationFailed => "AUTHENTICATION_FAILED"
    case AuthorizationFailed => "AUTHORIZATION_FAILED"
    case ConcurrentModification => "CONCURRENT_MODIFICATION"
    case VersionConflict => "VERSION_CONFLICT"
    case BusinessRuleViolation => "BUSINESS_RULE_VIOLATION"
    case InvalidState => "INVALID_STATE"
    case OperationNotAllowed => "OPERATION_NOT_ALLOWED"
    case QuotaExceeded => "QUOTA_EXCEEDED"
    case DomainValidationFailed => "DOMAIN_VALIDATION_FAILED"
    case BadRequest => "BAD_REQUEST"
    case ValidationFailed => "VALIDATION_FAILED"
    case InvalidParameter => "INVALID_PARAMETER"
    case MalformedRequest => "MALFORMED_REQUEST"
    case MissingParameter => "MISSING_PARAMETER"
    case TypeMismatch => "TYPE_MISMATCH"
    case InvalidInput => "INVALID_INPUT"
    case MissingField => "MISSING_FIELD"
    case FieldLengthIssue => "FIELD_LENGTH_ISSUE"
    case InvalidFormat => "INVALID_FORMAT"
    case OutOfRange => "OUT_OF_RANGE"
    case ResourceNotFound => "RESOURCE_NOT_FOUND"
    case ResourceExists => "RESOURCE_EXISTS"
    case ResourceConflict => "RESOURCE_CONFLICT"
    case AccountDisabled => "ACCOUNT_DISABLED"
    case AccountLocked => "ACCOUNT_LOCKED"
    case NoActionTaken => "NO_ACTION_TAKEN"
    case RequestNotProcessable => "REQUEST_NOT_PROCESSABLE"
    case Unauthenticated => "UNAUTHENTICATED"
    case InvalidCredentials => "INVALID_CREDENTIALS"
    case AccountIssue => "ACCOUNT_ISSUE"
    case Forbidden => "FORBIDDEN"
    case RoleRestricted => "ROLE_RESTRICTED"
    case ScopeRestricted => "SCOPE_RESTRICTED"
    case RateLimited => "RATE_LIMITED"
    case ConcurrencyLimit => "CONCURRENCY_LIMIT"
    case InternalError => "INTERNAL_ERROR"
    case ExternalServiceFailure => "EXTERNAL_SERVICE_FAILURE"
    case DatabaseError => "DATABASE_ERROR"
    case ExternalServiceTimeout => "EXTERNAL_SERVICE_TIMEOUT"
    case ServiceUnavailable => "SERVICE_UNAVAILABLE"
    case NotImplemented => "NOT_IMPLEMENTED"
    case GatewayTimeout => "GATEWAY_TIMEOUT"
  }

  /** `BaseAPICode.getHttpStatus()`: the status fixed in each constant's declaration.
      Every constant is a success (2xx, never 204) or an error (4xx/5xx) status. */
  function HttpStatus(c: BaseCode): (s: int)
    ensures 200 <= s < 600 && s != 204
    ensures s < 300 || 400 <= s
  {
    match c
    case Success => 200
    case ResourceCreated => 201
    case ResourceUpdated => 200
    case ResourceDeleted => 200
    case RequestAccepted => 202
    case UserSuccess => 200
    case UserCreated => 201
    case UserNotFound => 404
    case UserAlreadyExists => 409
    case UserAccountIssue => 403
    case AuthenticationFailed => 401
    case AuthorizationFailed => 403
    case ConcurrentModification => 409
    case VersionConflict => 409
    case BusinessRuleViolation => 400
    case InvalidState => 400
    case OperationNotAllowed => 403
    case QuotaExceeded => 429
    case DomainValidationFailed => 400
    case BadRequest => 400
    case ValidationFailed => 400
    case InvalidParameter => 400
    case MalformedRequest => 400
    case MissingParameter => 400
    case TypeMismatch => 400
    case InvalidInput => 400
    case MissingField => 400
    case FieldLengthIssue => 400
    case InvalidFormat => 400
    case OutOfRange => 400
    case ResourceNotFound => 404
    case ResourceExists => 409
    case ResourceConflict => 409
    case AccountDisabled => 403
    case AccountLocked => 403
    case NoActionTaken => 400
    case RequestNotProcessable => 400
    case Unauthenticated => 401
    case InvalidCredentials => 401
    case AccountIssue => 403
    case Forbidden => 403
    case RoleRestricted => 403
    case ScopeRestricted => 403
    case RateLimited => 429
    case ConcurrencyLimit => 429
    case InternalError => 500
    case ExternalServiceFailure => 502
    case DatabaseError => 500
    case ExternalServiceTimeout => 504
    case ServiceUnavailable => 503
    case NotImplemented => 501
    case GatewayTimeout => 504
  }

  /** A constant seen through the `APICode` capability: its enum name, its
      status, and the inherited (not overridden) default message. */
  function AsCode(c: BaseCode): (r: Code)
    ensures r.name == Name(c) && r.httpStatus == HttpStatus(c) && r.messageOverride.None?
  {
    Code(Name(c), HttpStatus(c), None)
  }

  /** Statuses pinned by the library's own tests. */
  lemma WellKnownStatuses()
    ensures HttpStatus(BaseCode.Success) == 200 && HttpStatus(ResourceCreated) == 201
    ensures HttpStatus(RequestAccepted) == 202
    ensures HttpStatus(InternalError) == 500 && HttpStatus(ServiceUnavailable) == 503
    ensures HttpStatus(GatewayTimeout) == 504
    ensures HttpStatus(NoActionTaken) == 400
  {
  }

  /** Reading of the name transform one character at a time, for checking it
      against a concrete expected message. */
  lemma {:induction false} NameToMessageIs(name: string, expected: string)
    requires |expected| == |name|
    requires forall i :: 0 <= i < |name| ==>
               expected[i] == (if name[i] == '_' then ' ' else JavaStrings.LowerChar(name[i]))
    ensures NameToMessage(name) == expected
  {
    var m := NameToMessage(name);
    assert |m| == |expected|;
    forall i | 0 <= i < |m| ensures m[i] == expected[i] { }
  }

  /** Default messages of built-in constants, as the tests expect them. */
  lemma SuccessMessage()
    ensures DefaultMessage(AsCode(BaseCode.Success)) == "success"
  {
    NameToMessageIs(Name(BaseCode.Success), "success");
  }

  lemma BadRequestMessage()
    ensures DefaultMessage(AsCode(BadRequest)) == "bad request"
  {
    NameToMessageIs(Name(BadRequest), "bad request");
  }

  lemma ResourceNotFoundMessage()
    ensures DefaultMessage(AsCode(ResourceNotFound)) == "resource not found"
  {
    NameToMessageIs(Name(ResourceNotFound), "resource not found");
  }

  lemma InternalErrorMessage()
    ensures DefaultMessage(AsCode(InternalError)) == "internal error"
  {
    NameToMessageIs(Name(InternalError), "internal error");
  }

  /** User-defined codes get the same transform. */
  lemma CustomCodeDefaultMessages()
    ensures DefaultMessage(Code("TEST_CODE", 418, None)) == "test code"
  {
    NameToMessageIs("TEST_CODE", "test code");
  }

  lemma LongCustomCodeDefaultMessage()
    ensures DefaultMessage(Code("LONG_ERROR_CODE_NAME", 400, None)) == "long error code name"
  {
    NameToMessageIs("LONG_ERROR_CODE_NAME", "long error code name");
  }
}
