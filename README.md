# lib-apicore in Dafny

A model of the core of `lib-apicore`, a small Java library that standardises
the JSON envelope of REST responses, with proofs of what the library promises:

- **The envelope** `APIResponse<T>` (`responses.dfy`, module `Responses`). The
  validating record constructor holds "exactly one of data and error" and a
  non-null message and timestamp. The `success`/`error` factories check the
  status class: 2xx other than 204 for a success, 4xx/5xx for an error. The
  queries `isSuccess`, `hasError`, `getData` and `getError` are modelled too.
  The mutable `Builder` is a Dafny class whose invariant is that data and
  error are never both set.
- **The error payload** `APIError` and `FieldError` (`api_errors.dfy`,
  `field_errors.dfy`): records, their convenience constructors, and their
  mutable builders. The records are immutable except for their field-error
  list: the list constructor of `APIError` and its builder both store the
  list they hold by reference, so a later change to that list shows in the
  record (see "Left out"). The `APIError` builder appends field errors in call
  order and turns an unset list into an empty one on `build()`.
- **Status codes** `APICode` and `BaseAPICode` (`codes.dfy`). A code is a
  name, a status and the default message derived from the name. The string
  operations it uses are in `java_strings.dfy`.
- **The exception taxonomy** (`exceptions.dfy`): the client, server and
  business-logic base classes, `ValidationException`,
  `TooManyRequestsException` and `ServiceUnavailableException`, and every
  other throwable, as one tagged union.
- **The mapper** `ExceptionResponseMapper` (`mapper.dfy`) and the framework
  adapter `BaseResponseAdapter` (`adapter.dfy`).

Modelling conventions:

- Java `null` is `Option.None`.
- An exception thrown by a constructor or factory is `Result.Err(reason)`.
  `Rejection.Thrown()` says whether it is an `IllegalArgumentException` or a
  `NullPointerException`.
- `Instant.now()` is a parameter `now`.
- `Long` is the 64-bit range as a subtype of `int`.

The code is followed wherever it disagrees with the library's description or
its tests:

- The record constructor refuses an envelope with neither data nor error
  (`APIResponse.java:84-86`). So `success(null, code)` fails, although
  `APIResponseTest.java:46`, `:58` and `:70` expect data-less successes.
- The overloads `success(code)` and `success(code, message)` that those tests
  call do not exist in `APIResponse.java`. They are not modelled.
- `Builder.build()` checks only the message and status 204
  (`APIResponse.java:311-321`). It builds a 200 envelope carrying an error and
  a 400 envelope carrying data (`Responses.BuilderSkipsStatusClassCheck`).
- The canonical `APIError` record keeps a null `fieldErrors`. Only the builder
  normalises it (`APIError.java:32-45`, `:190-194`).
- No code checks that a status lies in 100–599. Only the factories check
  the status class, and the builder's `status(int)` accepts any integer.

## Model

| member | source | states |
|---|---|---|
| JavaStrings.ToLowerCase | src/main/java/com/github/vikunalabs/lib/apicore/model/APICode.java:29 | lower-casing keeps the length, lowers each character in place, and leaves no upper-case letter |
| JavaStrings.Replace | src/main/java/com/github/vikunalabs/lib/apicore/model/APICode.java:29 | replacing a character keeps the length, replaces exactly the occurrences of the target, and leaves none behind |
| JavaStrings.NatToDecimal | src/main/java/com/github/vikunalabs/lib/apicore/exception/util/ExceptionResponseMapper.java:165 | the decimal form of a natural number is a non-empty digit string with no leading zero |
| JavaStrings.LongToString | src/main/java/com/github/vikunalabs/lib/apicore/exception/util/ExceptionResponseMapper.java:165 | `Long.toString` gives digits, preceded by '-' exactly for negative values |
| JavaStrings.NatToDecimalRoundTrip | src/main/java/com/github/vikunalabs/lib/apicore/exception/util/ExceptionResponseMapper.java:165 | reading back the digits of n gives n |
| JavaStrings.LongToStringRoundTrip | src/main/java/com/github/vikunalabs/lib/apicore/exception/util/ExceptionResponseMapper.java:165 | parsing the decimal string of any `long` gives the same `long` back |
| Codes.NameToMessage | src/main/java/com/github/vikunalabs/lib/apicore/model/APICode.java:28-30 | the default message has the name's length, no '_' and no upper-case letter; each position is the lowered character or a space for '_' |
| Codes.NameToMessageIdempotent | src/main/java/com/github/vikunalabs/lib/apicore/model/APICode.java:29 | applying the transform to its own output changes nothing |
| Codes.DefaultMessage | src/main/java/com/github/vikunalabs/lib/apicore/model/APICode.java:28-30 | `getDefaultMessage()` is the name transform, with the name's length, unless the implementation overrides it |
| Codes.FormattedMessage | src/main/java/com/github/vikunalabs/lib/apicore/model/APICode.java:37-39 | `getFormattedMessage(message)` returns its argument unchanged, null included |
| Codes.Name | src/main/java/com/github/vikunalabs/lib/apicore/model/BaseAPICode.java:16-230 | `name()` of a constant is its identifier as declared, never empty |
| Codes.HttpStatus | src/main/java/com/github/vikunalabs/lib/apicore/model/BaseAPICode.java:16-241 | every constant's status lies in [200, 600), is not 204, and is either 2xx or 4xx/5xx |
| Codes.AsCode | src/main/java/com/github/vikunalabs/lib/apicore/model/BaseAPICode.java:232-241 | a constant seen as an `APICode` has its enum name and its fixed status, and does not override the default message |
| Codes.WellKnownStatuses | src/main/java/com/github/vikunalabs/lib/apicore/model/BaseAPICode.java:16-230 | SUCCESS 200, RESOURCE_CREATED 201, REQUEST_ACCEPTED 202, INTERNAL_ERROR 500, SERVICE_UNAVAILABLE 503, GATEWAY_TIMEOUT 504, and NO_ACTION_TAKEN 400 rather than 204 |
| Codes.NameToMessageIs | src/main/java/com/github/vikunalabs/lib/apicore/model/APICode.java:29 | the transform equals any string that matches it character by character |
| Codes.SuccessMessage | src/test/java/com/github/vikunalabs/lib/apicore/model/BaseAPICodeTest.java:47-49 | the default message of SUCCESS is "success" |
| Codes.BadRequestMessage | src/test/java/com/github/vikunalabs/lib/apicore/model/APIResponseTest.java:103-143 | the default message of BAD_REQUEST is "bad request" |
| Codes.ResourceNotFoundMessage | src/test/java/com/github/vikunalabs/lib/apicore/model/BaseAPICodeTest.java:48 | the default message of RESOURCE_NOT_FOUND is "resource not found" |
| Codes.InternalErrorMessage | src/test/java/com/github/vikunalabs/lib/apicore/model/BaseAPICodeTest.java:49 | the default message of INTERNAL_ERROR is "internal error" |
| Codes.CustomCodeDefaultMessages | src/test/java/com/github/vikunalabs/lib/apicore/model/APICodeTest.java:29 | a user-defined code "TEST_CODE" gets the default message "test code" |
| Codes.LongCustomCodeDefaultMessage | src/test/java/com/github/vikunalabs/lib/apicore/model/APICodeTest.java:49 | "LONG_ERROR_CODE_NAME" gets the default message "long error code name" |
| FieldErrors.FieldErrorWithoutValue | src/main/java/com/github/vikunalabs/lib/apicore/model/FieldError.java:26-28 | the 3-argument constructor keeps field, code and message and has no rejected value |
| FieldErrors.FieldErrorText | src/main/java/com/github/vikunalabs/lib/apicore/model/FieldError.java:17 | the record's `toString()` starts with "FieldError[field=" and ends with ']' |
| FieldErrors.FieldErrorListText | src/main/java/com/github/vikunalabs/lib/apicore/exception/util/ExceptionResponseMapper.java:165 | a list of field errors prints between brackets, and prints as "[]" exactly when it is empty |
| FieldErrors.FieldErrorBuilder.constructor | src/main/java/com/github/vikunalabs/lib/apicore/model/FieldError.java:48-53 | a fresh builder has all four fields null |
| FieldErrors.FieldErrorBuilder.SetField | src/main/java/com/github/vikunalabs/lib/apicore/model/FieldError.java:61-64 | `field(..)` overwrites the field and nothing else |
| FieldErrors.FieldErrorBuilder.SetCode | src/main/java/com/github/vikunalabs/lib/apicore/model/FieldError.java:72-75 | `code(..)` overwrites the code and nothing else |
| FieldErrors.FieldErrorBuilder.SetMessage | src/main/java/com/github/vikunalabs/lib/apicore/model/FieldError.java:83-86 | `message(..)` overwrites the message and nothing else |
| FieldErrors.FieldErrorBuilder.SetRejectedValue | src/main/java/com/github/vikunalabs/lib/apicore/model/FieldError.java:94-97 | `rejectedValue(..)` overwrites the rejected value and nothing else |
| FieldErrors.FieldErrorBuilder.Build | src/main/java/com/github/vikunalabs/lib/apicore/model/FieldError.java:104-106 | `build()` returns a record holding exactly the last value set for each field |
| ApiErrors.SimpleError | src/main/java/com/github/vikunalabs/lib/apicore/model/APIError.java:53-55 | the 2-argument constructor gives an empty field-error list and null details |
| ApiErrors.ValidationError | src/main/java/com/github/vikunalabs/lib/apicore/model/APIError.java:64-66 | the list constructor stores the list exactly as given, null included, with null details |
| ApiErrors.DetailedError | src/main/java/com/github/vikunalabs/lib/apicore/model/APIError.java:75-77 | the details constructor gives an empty field-error list and the given details |
| ApiErrors.ConvenienceConstructorsFieldErrors | src/main/java/com/github/vikunalabs/lib/apicore/model/APIError.java:32-77 | only the list constructor can leave `fieldErrors` null, and only when given a null list |
| ApiErrors.AppendFieldError | src/main/java/com/github/vikunalabs/lib/apicore/model/APIError.java:141-147 | one `fieldError(e)` keeps the accumulated entries and puts `e` last, starting a list when none was set |
| ApiErrors.BuiltFieldErrors | src/main/java/com/github/vikunalabs/lib/apicore/model/APIError.java:190-194 | the list `build()` stores is the accumulator, or the empty list when it was never set |
| ApiErrors.AppendAllAppends | src/main/java/com/github/vikunalabs/lib/apicore/model/APIError.java:141-172 | successive appends add the entries at the end in call order and keep everything accumulated before |
| ApiErrors.FreshBuilderFieldErrors | src/main/java/com/github/vikunalabs/lib/apicore/model/APIError.java:141-194 | after n appends on a fresh builder, the built error has exactly those n entries in call order |
| ApiErrors.ApiErrorBuilder.constructor | src/main/java/com/github/vikunalabs/lib/apicore/model/APIError.java:95-100 | a fresh builder has every field null |
| ApiErrors.ApiErrorBuilder.SetCode | src/main/java/com/github/vikunalabs/lib/apicore/model/APIError.java:108-111 | `code(..)` is last-write-wins and leaves the other fields alone |
| ApiErrors.ApiErrorBuilder.SetMessage | src/main/java/com/github/vikunalabs/lib/apicore/model/APIError.java:119-122 | `message(..)` is last-write-wins and leaves the other fields alone |
| ApiErrors.ApiErrorBuilder.SetFieldErrors | src/main/java/com/github/vikunalabs/lib/apicore/model/APIError.java:130-133 | `fieldErrors(list)` replaces the accumulator wholesale |
| ApiErrors.ApiErrorBuilder.AddFieldError | src/main/java/com/github/vikunalabs/lib/apicore/model/APIError.java:141-147 | `fieldError(e)` appends `e` at the end of the accumulator |
| ApiErrors.ApiErrorBuilder.AddFieldErrorOf | src/main/java/com/github/vikunalabs/lib/apicore/model/APIError.java:157-159 | `fieldError(field, code, message)` appends a field error without rejected value |
| ApiErrors.ApiErrorBuilder.AddFieldErrorWithValue | src/main/java/com/github/vikunalabs/lib/apicore/model/APIError.java:170-172 | `fieldError(field, code, message, value)` appends a field error with that rejected value |
| ApiErrors.ApiErrorBuilder.SetDetails | src/main/java/com/github/vikunalabs/lib/apicore/model/APIError.java:180-183 | `details(..)` is last-write-wins and leaves the other fields alone |
| ApiErrors.ApiErrorBuilder.Build | src/main/java/com/github/vikunalabs/lib/apicore/model/APIError.java:190-194 | `build()` copies code, message and details unchanged and never yields a null field-error list |
| Responses.NewResponse | src/main/java/com/github/vikunalabs/lib/apicore/model/APIResponse.java:72-90 | construction succeeds exactly with one payload, a message and a timestamp; both or neither payload is an IllegalArgumentException, and a missing message or timestamp is a NullPointerException |
| Responses.CheckSuccessStatus | src/main/java/com/github/vikunalabs/lib/apicore/model/APIResponse.java:158-166 | passes exactly the 2xx statuses other than 204, refusing 204 as "no content" |
| Responses.CheckErrorStatus | src/main/java/com/github/vikunalabs/lib/apicore/model/APIResponse.java:168-172 | passes exactly the statuses in [400, 600) |
| Responses.ResponseDefaultMessage | src/main/java/com/github/vikunalabs/lib/apicore/model/APIResponse.java:326-328 | the envelope's default message is the name transform, equal to `getDefaultMessage()` when that is not overridden |
| Responses.SuccessResponse | src/main/java/com/github/vikunalabs/lib/apicore/model/APIResponse.java:104-107 | `success(data, code)` succeeds exactly for a 2xx, non-204 status with data, with the code's status, no error and the default message |
| Responses.SuccessResponseWithMessage | src/main/java/com/github/vikunalabs/lib/apicore/model/APIResponse.java:120-123 | `success(data, code, message)` applies the same checks, stores the message verbatim, and refuses null data or a null message |
| Responses.ErrorResponse | src/main/java/com/github/vikunalabs/lib/apicore/model/APIResponse.java:136-139 | `error(err, code)` succeeds exactly for a 4xx/5xx status and a non-null error, with no data and the default message |
| Responses.ErrorResponseWithMessage | src/main/java/com/github/vikunalabs/lib/apicore/model/APIResponse.java:151-154 | `error(err, code, message)` applies the same checks and stores the message verbatim; a null message is a NullPointerException |
| Responses.Response.IsSuccess | src/main/java/com/github/vikunalabs/lib/apicore/model/APIResponse.java:335-337 | `isSuccess()` holds for every status the success factories accept and for none the error factories accept |
| Responses.Response.HasError | src/main/java/com/github/vikunalabs/lib/apicore/model/APIResponse.java:344-346 | `hasError()` is "`getError()` is present", and on a constructed envelope "there is no data" |
| Responses.Response.GetData | src/main/java/com/github/vikunalabs/lib/apicore/model/APIResponse.java:354-356 | `getData()` is the data when present, and on a constructed envelope it is empty exactly when there is an error |
| Responses.Response.GetError | src/main/java/com/github/vikunalabs/lib/apicore/model/APIResponse.java:364-366 | `getError()` is the error when present, and on a constructed envelope it is empty exactly when there is data |
| Responses.ConstructedResponseQueries | src/main/java/com/github/vikunalabs/lib/apicore/model/APIResponse.java:335-366 | on every constructed envelope, `hasError()` holds exactly when `getData()` is empty |
| Responses.FactoryQueries | src/main/java/com/github/vikunalabs/lib/apicore/model/APIResponse.java:335-366 | success envelopes answer `isSuccess()` and have no error; error envelopes answer not `isSuccess()`, `hasError()`, and have no data |
| Responses.FactoriesIgnoreMessageOverride | src/main/java/com/github/vikunalabs/lib/apicore/model/APIResponse.java:326-328 | an overridden `getDefaultMessage()` does not change what the factories produce |
| Responses.SuccessFactoryExample | src/test/java/com/github/vikunalabs/lib/apicore/model/APIResponseTest.java:20-28 | `success(data, SUCCESS)` is status 200, that data, no error, message "success" |
| Responses.NoActionTakenIsNotSuccess | src/test/java/com/github/vikunalabs/lib/apicore/model/APIResponseTest.java:82-92 | `success(data, NO_ACTION_TAKEN)` is refused as a non-success status 400 |
| Responses.ErrorFactoryExample | src/test/java/com/github/vikunalabs/lib/apicore/model/APIResponseTest.java:103-143 | `error(e, BAD_REQUEST)` is status 400, no data, that error, message "bad request" |
| Responses.Builder.constructor | src/main/java/com/github/vikunalabs/lib/apicore/model/APIResponse.java:182-217 | `builder()` starts at status 0 with nothing set, the timestamp at the current instant, and the invariant holding |
| Responses.Builder.WithData | src/main/java/com/github/vikunalabs/lib/apicore/model/APIResponse.java:196-200 | `withData(d)` starts like `builder()` with the data already set |
| Responses.Builder.SetStatus | src/main/java/com/github/vikunalabs/lib/apicore/model/APIResponse.java:225-228 | `status(int)` takes any integer and changes nothing else |
| Responses.Builder.SetStatusFromCode | src/main/java/com/github/vikunalabs/lib/apicore/model/APIResponse.java:236-248 | `status(code)` refuses 204 leaving the builder unchanged, else takes the status and fills in the default message only when none is set |
| Responses.Builder.SetData | src/main/java/com/github/vikunalabs/lib/apicore/model/APIResponse.java:264-268 | `data(d)` sets the data and clears the error, keeping the invariant |
| Responses.Builder.SetError | src/main/java/com/github/vikunalabs/lib/apicore/model/APIResponse.java:276-280 | `error(e)` sets the error and clears the data, keeping the invariant |
| Responses.Builder.SetMessage | src/main/java/com/github/vikunalabs/lib/apicore/model/APIResponse.java:288-291 | `message(..)` overwrites the message only |
| Responses.Builder.SetTimestamp | src/main/java/com/github/vikunalabs/lib/apicore/model/APIResponse.java:299-302 | `timestamp(..)` overwrites the timestamp only |
| Responses.Builder.Build | src/main/java/com/github/vikunalabs/lib/apicore/model/APIResponse.java:311-321 | `build()` refuses a missing message and status 204, then is the record constructor; it never fails for "both data and error" |
| Responses.BuilderSkipsStatusClassCheck | src/main/java/com/github/vikunalabs/lib/apicore/model/APIResponse.java:311-321 | the builder builds a 200 envelope with an error and a 400 envelope with data |
| Exceptions.CategoriesPartition | src/main/java/com/github/vikunalabs/lib/apicore/exception/util/ExceptionResponseMapper.java:174-196 | the three category tests are pairwise disjoint and together hold exactly for the library's exceptions |
| Exceptions.IsClientError | src/main/java/com/github/vikunalabs/lib/apicore/exception/util/ExceptionResponseMapper.java:174-176 | `isClientError` is `instanceof ClientErrorsBaseException`; every `ValidationException` and `TooManyRequestsException` passes it, and only the library's exceptions can |
| Exceptions.IsServerError | src/main/java/com/github/vikunalabs/lib/apicore/exception/util/ExceptionResponseMapper.java:184-186 | `isServerError` is `instanceof ServerErrorsBaseException`; every `ServiceUnavailableException` passes it, and no client error does |
| Exceptions.IsBusinessError | src/main/java/com/github/vikunalabs/lib/apicore/exception/util/ExceptionResponseMapper.java:194-196 | `isBusinessError` is `instanceof BusinessLogicBaseException`; no client or server error and none of the three modelled subclasses passes it |
| Exceptions.GetCode | src/main/java/com/github/vikunalabs/lib/apicore/exception/base/ClientErrorsBaseException.java:80-82 | `getCode()` returns the code the exception was constructed with (the same in all three base classes) |
| Exceptions.GetDetails | src/main/java/com/github/vikunalabs/lib/apicore/exception/base/ClientErrorsBaseException.java:89-91 | `getDetails()` returns the details the exception was constructed with (the same in all three base classes) |
| Exceptions.GetHttpStatus | src/main/java/com/github/vikunalabs/lib/apicore/exception/base/ClientErrorsBaseException.java:98-100 | `getHttpStatus()` is the status of `getCode()` |
| Exceptions.ClientErrorsBaseException | src/main/java/com/github/vikunalabs/lib/apicore/exception/base/ClientErrorsBaseException.java:29-91 | the constructors give a client exception whose code, message, cause and details are those given, and null details when none is given |
| Exceptions.ServerErrorsBaseException | src/main/java/com/github/vikunalabs/lib/apicore/exception/base/ServerErrorsBaseException.java:30-92 | the same for a server exception |
| Exceptions.BusinessLogicBaseException | src/main/java/com/github/vikunalabs/lib/apicore/exception/base/BusinessLogicBaseException.java:33-95 | the same for a business-logic exception |
| Exceptions.OtherThrowable | src/main/java/com/github/vikunalabs/lib/apicore/exception/util/ExceptionResponseMapper.java:174-196 | a throwable outside the taxonomy is in none of the three categories |
| Exceptions.ValidationFieldErrors | src/main/java/com/github/vikunalabs/lib/apicore/exception/client/ValidationException.java:66-68 | `getFieldErrors()` is present exactly when the details are a field-error list, and storing its result as details again gives back the details |
| Exceptions.NewValidationException | src/main/java/com/github/vikunalabs/lib/apicore/exception/client/ValidationException.java:34-36 | `(code, message)` gives a client exception whose `getFieldErrors()` is null |
| Exceptions.ValidationExceptionWithFieldErrors | src/main/java/com/github/vikunalabs/lib/apicore/exception/client/ValidationException.java:45-47 | `(code, message, list)` gives a client exception whose `getFieldErrors()` is exactly that list |
| Exceptions.ValidationExceptionWithCause | src/main/java/com/github/vikunalabs/lib/apicore/exception/client/ValidationException.java:56-58 | `(code, message, cause)` keeps the cause and gives null field errors |
| Exceptions.RetryAfterSeconds | src/main/java/com/github/vikunalabs/lib/apicore/exception/client/TooManyRequestsException.java:58-61 | `getRetryAfterSeconds()` (also ServiceUnavailableException.java:59-62) is present exactly when the details are a `Long`, and is that `Long` |
| Exceptions.NewTooManyRequestsException | src/main/java/com/github/vikunalabs/lib/apicore/exception/client/TooManyRequestsException.java:27-29 | `(code, message)` gives a client exception whose `getRetryAfterSeconds()` is null |
| Exceptions.TooManyRequestsExceptionWithRetry | src/main/java/com/github/vikunalabs/lib/apicore/exception/client/TooManyRequestsException.java:38-40 | `(code, message, n)` gives `getRetryAfterSeconds()` = n |
| Exceptions.TooManyRequestsExceptionWithCause | src/main/java/com/github/vikunalabs/lib/apicore/exception/client/TooManyRequestsException.java:49-51 | `(code, message, cause)` keeps the cause and gives a null retry-after |
| Exceptions.NewServiceUnavailableException | src/main/java/com/github/vikunalabs/lib/apicore/exception/server/ServiceUnavailableException.java:28-30 | `(code, message)` gives a server exception whose `getRetryAfterSeconds()` is null |
| Exceptions.ServiceUnavailableExceptionWithRetry | src/main/java/com/github/vikunalabs/lib/apicore/exception/server/ServiceUnavailableException.java:39-41 | `(code, message, n)` gives `getRetryAfterSeconds()` = n |
| Exceptions.ServiceUnavailableExceptionWithCause | src/main/java/com/github/vikunalabs/lib/apicore/exception/server/ServiceUnavailableException.java:50-52 | `(code, message, cause)` keeps the cause and gives a null retry-after |
| Mapper.ConvertDetailsToString | src/main/java/com/github/vikunalabs/lib/apicore/exception/util/ExceptionResponseMapper.java:154-166 | null details stay null, a String is kept, a Long becomes its decimal string, a field-error list its bracketed form, any other object its `toString()` |
| Mapper.ClientApiError | src/main/java/com/github/vikunalabs/lib/apicore/exception/util/ExceptionResponseMapper.java:33-47 | the client payload has the code's name and the message; a validation exception contributes its field errors (empty when null) and no details, any other its details' string form and no field errors |
| Mapper.ServerApiError | src/main/java/com/github/vikunalabs/lib/apicore/exception/util/ExceptionResponseMapper.java:60-66 | the server payload has the code's name, the message, the details' string form and no field errors |
| Mapper.BusinessApiError | src/main/java/com/github/vikunalabs/lib/apicore/exception/util/ExceptionResponseMapper.java:83-89 | the business payload has the code's name, the message, the details' string form and no field errors |
| Mapper.MapClient | src/main/java/com/github/vikunalabs/lib/apicore/exception/util/ExceptionResponseMapper.java:32-50 | the client mapping succeeds exactly for a 4xx/5xx code and a non-null message, with the exception's status, the client payload and the message; otherwise it fails as the error factory does; `APIResponse.fromException(ClientErrorsBaseException)` (APIResponse.java:375-377) and the exception's `toResponse()` (ClientErrorsBaseException.java:108-110) delegate to it |
| Mapper.MapServer | src/main/java/com/github/vikunalabs/lib/apicore/exception/util/ExceptionResponseMapper.java:59-73 | the same for the server mapping, with the message passed through unchanged; `APIResponse.fromException(ServerErrorsBaseException)` (APIResponse.java:386-388) and the exception's `toResponse()` (ServerErrorsBaseException.java:109-111) delegate to it |
| Mapper.MapBusiness | src/main/java/com/github/vikunalabs/lib/apicore/exception/util/ExceptionResponseMapper.java:82-92 | the same for the business mapping; `APIResponse.fromException(BusinessLogicBaseException)` (APIResponse.java:397-399) and the exception's `toResponse()` (BusinessLogicBaseException.java:112-114) delegate to it |
| Mapper.DefaultInternalErrorCode | src/main/java/com/github/vikunalabs/lib/apicore/exception/util/ExceptionResponseMapper.java:143-145 | the fallback code is INTERNAL_ERROR with status 500 |
| Mapper.InternalApiError | src/main/java/com/github/vikunalabs/lib/apicore/exception/util/ExceptionResponseMapper.java:110-113 | the fallback payload has code "INTERNAL_ERROR", message "An unexpected error occurred", no field errors and no details |
| Mapper.MapThrowable | src/main/java/com/github/vikunalabs/lib/apicore/exception/util/ExceptionResponseMapper.java:106-116 | the fallback always succeeds with status 500, the fallback payload and message "Internal server error" |
| Mapper.MapException | src/main/java/com/github/vikunalabs/lib/apicore/exception/util/ExceptionResponseMapper.java:125-135 | the dispatch gives each category its own mapping and every other throwable the fallback |
| Mapper.TypedMapping | src/main/java/com/github/vikunalabs/lib/apicore/exception/util/ExceptionResponseMapper.java:32-92 | a typed exception maps to its code's status, message and name, or fails: IllegalArgumentException for a status outside [400, 600), NullPointerException for a null message |
| Mapper.ValidationFieldErrorsMapped | src/main/java/com/github/vikunalabs/lib/apicore/exception/util/ExceptionResponseMapper.java:37-41 | a validation exception's field errors reach the payload in the same order, with null details; a null or empty list, or the other constructors, give an empty list |
| Mapper.RetryAfterMapped | src/main/java/com/github/vikunalabs/lib/apicore/exception/util/ExceptionResponseMapper.java:42-66 | a retry-after of n seconds reaches the payload as the decimal string of n, which reads back as n, with no field errors |
| Mapper.DetailsMapped | src/main/java/com/github/vikunalabs/lib/apicore/exception/util/ExceptionResponseMapper.java:42-92 | string details surface unchanged and null details stay null, in all three categories |
| Mapper.MapThrowableIgnoresInput | src/main/java/com/github/vikunalabs/lib/apicore/exception/util/ExceptionResponseMapper.java:106-116 | the fallback's result does not depend on the throwable, and its status is 500 |
| Adapter.StatusFromException | src/main/java/com/github/vikunalabs/lib/apicore/integration/BaseResponseAdapter.java:41-52 | the library's exceptions report their code's status; any other throwable reports 500 |
| Adapter.HandleException | src/main/java/com/github/vikunalabs/lib/apicore/integration/BaseResponseAdapter.java:30-32 | as written, every throwable becomes the 500 INTERNAL_ERROR envelope |
| Adapter.HandleExceptionDispatching | src/main/java/com/github/vikunalabs/lib/apicore/integration/BaseResponseAdapter.java:24-32 | a dispatching handler's envelope carries the status `getHttpStatusFromException` reports, and the code's name for a mappable exception |
| Adapter.HandleExceptionDisagreesWithStatus | src/main/java/com/github/vikunalabs/lib/apicore/integration/BaseResponseAdapter.java:30-51 | for any typed exception whose status is not 500, `handleException` and `getHttpStatusFromException` disagree |
| Adapter.ResourceNotFoundHandled | src/main/java/com/github/vikunalabs/lib/apicore/integration/BaseResponseAdapter.java:30-51 | a RESOURCE_NOT_FOUND client exception reports 404 but is handled as 500 INTERNAL_ERROR; the dispatching handler answers 404 RESOURCE_NOT_FOUND |

## Findings

| source | as written | input that shows it | evidently intended | confidence | as-written member | corrected member |
|---|---|---|---|---|---|---|
| src/main/java/com/github/vikunalabs/lib/apicore/integration/BaseResponseAdapter.java:30-32 | `handleException(Throwable)` calls `ExceptionResponseMapper.toResponse(exception)` with a `Throwable` argument, which binds to the `toResponse(Throwable)` fallback | a `ClientErrorsBaseException` with code RESOURCE_NOT_FOUND (404) and message "User not found": the envelope is 500 INTERNAL_ERROR, while `getHttpStatusFromException` says 404 | dispatch on the category, as `toResponse(Exception)` does, so the envelope carries "proper HTTP status" as the method's documentation says | high, not executed | Adapter.HandleExceptionDisagreesWithStatus | Adapter.HandleExceptionDispatching |

## Left out

- JSON and OpenAPI concerns (Jackson and Swagger annotations, `Serializable`, the wire shape) are serialiser behaviour, not library logic.
- The clock: `Instant.now()` is the parameter `now`.
- `getFormattedMessage(template, args...)` (`APICode.java:47-49`) is a thin wrapper over `String.format`, a foreign formatter.
- Codes.Name: the contract states only that a name is non-empty; that every name is in upper snake case and that distinct constants have distinct names is not stated, because checking the 52 literal names character by character is beyond the verifier's budget.
- JavaStrings.ToLowerCase: assumes a default locale in which 'A'..'Z' map to 'a'..'z' and nothing else changes; `toLowerCase()` follows the default locale (under a Turkic locale 'I' becomes a dotless 'ı'), and the lower-casing of non-ASCII characters is not modelled.
- FieldErrors.FieldErrorText: the contract states only the frame of the text (the "FieldError[field=" prefix and the closing ']'); the component texts between them are given by the definition, not by an ensures.
- Opaque details and rejected values are known only by the string their `toString()` returns; what that string is cannot be known.
- The `toString()` of records and lists is written in the usual OpenJDK form; a list holding null elements is not modelled.
- Responses.Builder.SetData: the generic re-typing of `data(U)` and its `ClassCastException` are not modelled; the builder keeps its element type.
- Envelopes built from an error (the `error` factories, the mapper, the adapter) have their data type fixed to `NoData`. Java lets the caller pick any `T` there (`APIResponse<?>` in the adapter), and their data is always null.
- The `Optional` wrappers of `getData()`/`getError()` are Dafny `Option` values.
- Causes and stack traces are stored but never read; the model keeps the cause as a value.
- ApiErrors.ApiErrorBuilder.Build: `build()` puts the builder's own list into the record (`APIError.java:192-193`), so a later `fieldError(..)` on the same builder (`APIError.java:145`) also changes the field errors of every `APIError` it built after its list was created (by `fieldErrors(list)` or a first `fieldError(..)`); an error built while no list was set holds a fresh `List.of()` (`APIError.java:192`) and does not change, since the next `fieldError(..)` creates a new list (`APIError.java:142-144`). The model copies the list, so a built error never changes.
- ApiErrors.ValidationError: `new APIError(code, message, fieldErrors)` (`APIError.java:64-66`) stores the caller's list by reference, so a later change to that list by the caller changes the record; the model copies the list. The same holds for the list of a `ValidationException`, which reaches the mapped payload through `fieldErrors(list)` and `build()` (`ExceptionResponseMapper.java:38-40`, `APIError.java:192-193`).
- ApiErrors.ApiErrorBuilder.SetFieldErrors: the caller's list is copied, not aliased, so later mutation of that list by the caller is not modelled. Appending after `fieldErrors(List.of(..))` throws `UnsupportedOperationException` in Java; the model appends.
- The field-holder subclasses (`ResourceNotFoundException`, `DatabaseException`, `QuotaExceededException` and the others) add fields nothing reads; they are base-category values of their base class.
- The stale copy of `BaseAPICode` under `com.vikunalabs` is not part of this model: its `APICode` interface is absent and nothing uses it.
- The mapper's private constructor only prevents instantiation.
- A null `APICode` passed to a factory or exception is not modelled (codes are never null here); in Java it is a `NullPointerException`. Neither is a user-defined `APICode` whose `name()` returns null (a code's name is a `string` here): in Java its default `getDefaultMessage()` (`APICode.java:29`) throws a `NullPointerException`, and the mapper's `.code(ex.getCode().name())` puts a null code in the payload.
- Mapper.ClientApiError and Exceptions.ValidationFieldErrors assume the details of a `ValidationException` are a field-error list or null, as its constructors guarantee; the `ClassCastException` of `getFieldErrors()` on anything else cannot arise.
