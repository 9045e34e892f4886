/** `APIResponse<T>`: the envelope every endpoint returns (status, data or
    error, message, timestamp), its validating constructor, its factories,
    its queries and its mutable builder. */
module Responses {
  import opened Wrappers
  import opened Codes
  import opened ApiErrors

  /** A point in time (`java.time.Instant`); the clock itself is not modelled,
      callers pass the value `Instant.now()` would have returned. */
  datatype Instant = Instant(epochSecond: int, nano: nat)

  /** The two Java exception classes construction can throw. */
  datatype ExceptionClass = IllegalArgument | NullPointer

  /** Why construction threw, one variant per `throw` / `requireNonNull` site. */
  datatype Rejection =
    | BothDataAndError          // "Both data and error cannot be non-null"
    | NeitherDataNorError       // "Either data or error must be non-null"
    | NullMessage               // "Message cannot be null"
    | NullTimestamp             // "Timestamp cannot be null"
    | NonSuccessStatus(status: int)
    | NoContent                 // HTTP 204 refused (factories, Builder.status(code), build())
    | NonErrorStatus(status: int)
    | MessageRequired           // Builder.build() without a message
  {
    /** The class of the thrown exception. */
    function Thrown(): ExceptionClass {
      match this
      case NullMessage => NullPointer
      case NullTimestamp => NullPointer
      case _ => IllegalArgument
    }
  }

  /** The data type of an envelope built from an error. Java lets the caller
      choose any `T` there, and the data is always null, so one stand-in
      type serves every such envelope. */
  datatype NoData = NoData

  /** A constructed envelope. Message and timestamp are never null once
      constructed, so they are not optional here; data and error are. */
  datatype Response<T> = Response(
    status: int,
    data: Option<T>,
    error: Option<ApiError>,
    message: string,
    timestamp: Instant)
  {
    /** The constructor's invariant: exactly one of data and error is present. */
    predicate ExactlyOnePayload() {
      data.Some? != error.Some?
    }

    /** `isSuccess()`: every status a success factory accepts is a success,
        and no status an error factory accepts is. */
    predicate IsSuccess()
      ensures CheckSuccessStatus(status).None? ==> IsSuccess()
      ensures IsSuccess() ==> CheckErrorStatus(status).Some?
    {
      200 <= status < 300
    }

    /** `hasError()`: on a constructed envelope, the same as having no data. */
    predicate HasError()
      ensures HasError() <==> GetError().Some?
      ensures ExactlyOnePayload() ==> (HasError() <==> data.None?)
    {
      error.Some?
    }

    /** `getData()`: the data as an optional value, never throwing; on a
        constructed envelope it is empty exactly when there is an error. */
    function GetData(): (r: Option<T>)
      ensures r.Some? ==> data == Some(r.value)
      ensures ExactlyOnePayload() ==> (r.None? <==> error.Some?)
    {
      data
    }

    /** `getError()`: the error as an optional value; on a constructed
        envelope it is empty exactly when there is data. */
    function GetError(): (r: Option<ApiError>)
      ensures r.Some? ==> error == Some(r.value)
      ensures ExactlyOnePayload() ==> (r.None? <==> data.Some?)
    {
      error
    }
  }

  /** The compact constructor `new APIResponse<>(status, data, error, message,
      timestamp)`: both payloads or neither is an IllegalArgumentException, a
      null message or timestamp then a NullPointerException; the status is
      not checked. */
  function NewResponse<T>(status: int, data: Option<T>, error: Option<ApiError>,
                          message: Option<string>, timestamp: Option<Instant>): (r: Result<Response<T>, Rejection>)
    ensures r.Ok? <==> data.Some? != error.Some? && message.Some? && timestamp.Some?
    ensures r.Ok? ==> r.value.ExactlyOnePayload()
    ensures r.Ok? ==> r.value.status == status && r.value.data == data && r.value.error == error
                           && r.value.message == message.value && r.value.timestamp == timestamp.value
    ensures data.Some? && error.Some? ==> r == Err(BothDataAndError)
    ensures data.None? && error.None? ==> r == Err(NeitherDataNorError)
    ensures data.Some? != error.Some? && message.None? ==> r == Err(NullMessage)
    ensures r.Err? ==> (r.reason.Thrown() == NullPointer <==> data.Some? != error.Some?)
  {
    if data.Some? && error.Some? then Err(BothDataAndError)
    else if data.None? && error.None? then Err(NeitherDataNorError)
    else if message.None? then Err(NullMessage)
    else if timestamp.None? then Err(NullTimestamp)
    else Ok(Response(status, data, error, message.value, timestamp.value))
  }

  /** `validateSuccessState(status)`: passes exactly the 2xx statuses other than 204. */
  function CheckSuccessStatus(status: int): (r: Option<Rejection>)
    ensures r.None? <==> 200 <= status < 300 && status != 204
    ensures r.Some? ==> r.value.Thrown() == IllegalArgument
    ensures status == 204 ==> r == Some(NoContent)
  {
    if status < 200 || status >= 300 then Some(NonSuccessStatus(status))
    else if status == 204 then Some(NoContent)
    else None
  }

  /** `validateErrorState(status)`: passes exactly the 4xx and 5xx statuses. */
  function CheckErrorStatus(status: int): (r: Option<Rejection>)
    ensures r.None? <==> 400 <= status < 600
    ensures r.Some? ==> r.value == NonErrorStatus(status)
  {
    if status < 400 || status >= 600 then Some(NonErrorStatus(status)) else None
  }

  /** The private `getDefaultMessage(code)`: the name transform applied to
      `code.name()` directly, so an overriding `getDefaultMessage()` is bypassed. */
  function ResponseDefaultMessage(code: Code): (m: string)
    ensures m == NameToMessage(code.name)
    ensures code.messageOverride.None? ==> m == DefaultMessage(code)
  {
    NameToMessage(code.name)
  }

  // ---------------------------------------------------------------------
  // Factories
  // ---------------------------------------------------------------------

  /** `success(data, code)`: a 2xx status other than 204, data present, the
      default message of the code's name. */
  function SuccessResponse<T>(data: Option<T>, code: Code, now: Instant): (r: Result<Response<T>, Rejection>)
    ensures r.Ok? <==> 200 <= code.httpStatus < 300 && code.httpStatus != 204 && data.Some?
    ensures r.Ok? ==> r.value.status == code.httpStatus && r.value.data == data
                           && r.value.error.None? && r.value.message == NameToMessage(code.name)
                           && r.value.timestamp == now
    ensures !(200 <= code.httpStatus < 300) ==> r == Err(NonSuccessStatus(code.httpStatus))
    ensures code.httpStatus == 204 ==> r == Err(NoContent)
    ensures r.Err? ==> r.reason.Thrown() == IllegalArgument
  {
    match CheckSuccessStatus(code.httpStatus)
    case Some(rejection) => Err(rejection)
    case None => NewResponse(code.httpStatus, data, None, Some(ResponseDefaultMessage(code)), Some(now))
  }

  /** `success(data, code, message)`: the same status checks, the message
      stored verbatim; a null message is a NullPointerException. */
  function SuccessResponseWithMessage<T>(data: Option<T>, code: Code, message: Option<string>, now: Instant): (r: Result<Response<T>, Rejection>)
    ensures r.Ok? <==> 200 <= code.httpStatus < 300 && code.httpStatus != 204 && data.Some? && message.Some?
    ensures r.Ok? ==> r.value.status == code.httpStatus && r.value.data == data
                           && r.value.error.None? && r.value.message == message.value
                           && r.value.timestamp == now
    ensures !(200 <= code.httpStatus < 300) ==> r == Err(NonSuccessStatus(code.httpStatus))
    ensures code.httpStatus == 204 ==> r == Err(NoContent)
    ensures CheckSuccessStatus(code.httpStatus).None? && data.None? ==> r == Err(NeitherDataNorError)
    ensures CheckSuccessStatus(code.httpStatus).None? && data.Some? && message.None? ==> r == Err(NullMessage)
  {
    match CheckSuccessStatus(code.httpStatus)
    case Some(rejection) => Err(rejection)
    case None => NewResponse(code.httpStatus, data, None, message, Some(now))
  }

  /** `error(apiError, code)`: a 4xx/5xx status, the error present, the default
      message of the code's name. */
  function ErrorResponse(error: Option<ApiError>, code: Code, now: Instant): (r: Result<Response<NoData>, Rejection>)
    ensures r.Ok? <==> 400 <= code.httpStatus < 600 && error.Some?
    ensures r.Ok? ==> r.value.status == code.httpStatus && r.value.data.None?
                           && r.value.error == error && r.value.message == NameToMessage(code.name)
                           && r.value.timestamp == now
    ensures !(400 <= code.httpStatus < 600) ==> r == Err(NonErrorStatus(code.httpStatus))
    ensures 400 <= code.httpStatus < 600 && error.None? ==> r == Err(NeitherDataNorError)
  {
    match CheckErrorStatus(code.httpStatus)
    case Some(rejection) => Err(rejection)
    case None => NewResponse(code.httpStatus, None, error, Some(ResponseDefaultMessage(code)), Some(now))
  }

  /** `error(apiError, code, message)`: the same checks, the message verbatim. */
  function ErrorResponseWithMessage(error: Option<ApiError>, code: Code, message: Option<string>, now: Instant): (r: Result<Response<NoData>, Rejection>)
    ensures r.Ok? <==> 400 <= code.httpStatus < 600 && error.Some? && message.Some?
    ensures r.Ok? ==> r.value.status == code.httpStatus && r.value.data.None?
                           && r.value.error == error && r.value.message == message.value
                           && r.value.timestamp == now
    ensures !(400 <= code.httpStatus < 600) ==> r == Err(NonErrorStatus(code.httpStatus))
    ensures 400 <= code.httpStatus < 600 && error.None? ==> r == Err(NeitherDataNorError)
    ensures 400 <= code.httpStatus < 600 && error.Some? && message.None? ==> r == Err(NullMessage)
  {
    match CheckErrorStatus(code.httpStatus)
    case Some(rejection) => Err(rejection)
    case None => NewResponse(code.httpStatus, None, error, message, Some(now))
  }

  // ---------------------------------------------------------------------
  // Properties of the factories and queries
  // ---------------------------------------------------------------------

  /** Every envelope the constructor lets through answers the queries
      consistently: an error is present exactly when data is absent. */
  lemma ConstructedResponseQueries<T>(status: int, data: Option<T>, error: Option<ApiError>,
                                      message: Option<string>, timestamp: Option<Instant>)
    requires NewResponse(status, data, error, message, timestamp).Ok?
    ensures var resp := NewResponse(status, data, error, message, timestamp).value;
            resp.HasError() <==> resp.GetData().None?
  {
  }

  /** What the queries report on factory results: success envelopes are
      successes without error, error envelopes are errors without data. */
  lemma FactoryQueries<T>(data: Option<T>, error: Option<ApiError>, code: Code, message: Option<string>, now: Instant)
    ensures var r := SuccessResponseWithMessage(data, code, message, now);
            r.Ok? ==> r.value.IsSuccess() && !r.value.HasError() && r.value.GetData() == data
    ensures var r := ErrorResponseWithMessage(error, code, message, now);
            r.Ok? ==> !r.value.IsSuccess() && r.value.HasError() && r.value.GetError() == error
                           && r.value.GetData().None?
  {
  }

  /** The factories ignore an overridden `getDefaultMessage()`: two codes that
      differ only in the override give the same envelope. */
  lemma FactoriesIgnoreMessageOverride<T>(data: Option<T>, error: Option<ApiError>, name: string, status: int,
                                          override1: Option<string>, override2: Option<string>, now: Instant)
    ensures SuccessResponse(data, Code(name, status, override1), now)
         == SuccessResponse(data, Code(name, status, override2), now)
    ensures ErrorResponse(error, Code(name, status, override1), now)
         == ErrorResponse(error, Code(name, status, override2), now)
  {
  }

  /** `success(data, SUCCESS)` gives status 200 and the message "success". */
  lemma SuccessFactoryExample<T>(data: T, now: Instant)
    ensures SuccessResponse(Some(data), AsCode(BaseCode.Success), now) == Ok(Response(200, Some(data), None, "success", now))
  {
    SuccessMessage();
  }

  /** `success(data, NO_ACTION_TAKEN)` is refused: its status is 400, not 2xx. */
  lemma NoActionTakenIsNotSuccess<T>(data: T, now: Instant)
    ensures SuccessResponse(Some(data), AsCode(NoActionTaken), now) == Err(NonSuccessStatus(400))
  {
  }

  /** `error(e, BAD_REQUEST)` gives status 400 and the message "bad request". */
  lemma ErrorFactoryExample(e: ApiError, now: Instant)
    ensures ErrorResponse(Some(e), AsCode(BadRequest), now) == Ok(Response(400, None, Some(e), "bad request", now))
  {
    var code := AsCode(BadRequest);
    assert code.httpStatus == 400;
    BadRequestMessage();
  }

  // ---------------------------------------------------------------------
  // Builder
  // ---------------------------------------------------------------------

  /** `APIResponse.Builder<T>`: five mutable fields; `data(..)` clears the
      error and `error(..)` clears the data, so the two are never both set. */
  class Builder<T> {
    var status: int
    var data: Option<T>
    var error: Option<ApiError>
    var message: Option<string>
    var timestamp: Option<Instant>

    /** The builder's invariant: data and error are never both present. */
    ghost predicate Valid()
      reads this
    {
      !(data.Some? && error.Some?)
    }

    /** `APIResponse.builder()`: status 0, nothing set, the timestamp defaulted
        to the current instant. */
    constructor (now: Instant)
      ensures Valid()
      ensures status == 0 && data.None? && error.None? && message.None? && timestamp == Some(now)
    {
      status, data, error, message, timestamp := 0, None, None, None, Some(now);
    }

    /** `APIResponse.withData(data)`: a fresh builder with the data already set. */
    constructor WithData(d: Option<T>, now: Instant)
      ensures Valid()
      ensures status == 0 && data == d && error.None? && message.None? && timestamp == Some(now)
    {
      status, data, error, message, timestamp := 0, d, None, None, Some(now);
    }

    /** `status(int)`: any integer, unchecked. */
    method SetStatus(s: int)
      requires Valid()
      modifies this
      ensures Valid()
      ensures status == s
      ensures data == old(data) && error == old(error) && message == old(message) && timestamp == old(timestamp)
    {
      status := s;
    }

    /** `status(APICode)`: refuses 204 and then leaves the builder as it was;
        otherwise takes the code's status and fills in the default message
        only if no message has been set. */
    method SetStatusFromCode(code: Code) returns (rejection: Option<Rejection>)
      requires Valid()
      modifies this
      ensures Valid()
      ensures rejection.Some? <==> code.httpStatus == 204
      ensures rejection.Some? ==> rejection.value == NoContent && status == old(status) && message == old(message)
      ensures rejection.None? ==> status == code.httpStatus
      ensures rejection.None? ==> message == (if old(message).None? then Some(NameToMessage(code.name)) else old(message))
      ensures data == old(data) && error == old(error) && timestamp == old(timestamp)
    {
      if code.httpStatus == 204 {
        return Some(NoContent);
      }
      status := code.httpStatus;
      if message.None? {
        message := Some(ResponseDefaultMessage(code));
      }
      rejection := None;
    }

    /** `data(d)`: sets the data and clears the error. */
    method SetData(d: Option<T>)
      requires Valid()
      modifies this
      ensures Valid()
      ensures data == d && error.None?
      ensures status == old(status) && message == old(message) && timestamp == old(timestamp)
    {
      data := d;
      error := None;
    }

    /** `error(e)`: sets the error and clears the data. */
    method SetError(e: Option<ApiError>)
      requires Valid()
      modifies this
      ensures Valid()
      ensures error == e && data.None?
      ensures status == old(status) && message == old(message) && timestamp == old(timestamp)
    {
      error := e;
      data := None;
    }

    method SetMessage(m: Option<string>)
      requires Valid()
      modifies this
      ensures Valid()
      ensures message == m
      ensures status == old(status) && data == old(data) && error == old(error) && timestamp == old(timestamp)
    {
      message := m;
    }

    method SetTimestamp(t: Option<Instant>)
      requires Valid()
      modifies this
      ensures Valid()
      ensures timestamp == t
      ensures status == old(status) && data == old(data) && error == old(error) && message == old(message)
    {
      timestamp := t;
    }

    /** `build()`: refuses a missing message and status 204, then hands the
        fields to the constructor. The status class is NOT cross-checked
        against data or error, and thanks to the invariant the "both data and
        error" rejection cannot occur. */
    method Build() returns (r: Result<Response<T>, Rejection>)
      requires Valid()
      ensures message.None? ==> r == Err(MessageRequired)
      ensures message.Some? && status == 204 ==> r == Err(NoContent)
      ensures message.Some? && status != 204 ==> r == NewResponse(status, data, error, message, timestamp)
      ensures r.Ok? <==> message.Some? && status != 204 && (data.Some? || error.Some?) && timestamp.Some?
      ensures r.Ok? ==> r.value.ExactlyOnePayload() && r.value.status == status
                        && r.value.data == data && r.value.error == error
      ensures r.Err? ==> r.reason != BothDataAndError
    {
      if message.None? {
        return Err(MessageRequired);
      }
      if status == 204 {
        return Err(NoContent);
      }
      r := NewResponse(status, data, error, message, timestamp);
    }
  }

  /** `builder().status(200).error(e)` builds: the builder does not enforce that
      a 2xx envelope carries no error, nor that a 4xx envelope carries one. */
  method BuilderSkipsStatusClassCheck(e: ApiError, d: string, now: Instant)
    returns (successWithError: Result<Response<string>, Rejection>, errorWithData: Result<Response<string>, Rejection>)
    ensures successWithError == Ok(Response(200, None, Some(e), "ok", now))
    ensures errorWithData == Ok(Response(400, Some(d), None, "bad", now))
  {
    var b := new Builder<string>(now);
    b.SetStatus(200);
    b.SetError(Some(e));
    b.SetMessage(Some("ok"));
    successWithError := b.Build();
    var c := new Builder<string>(now);
    c.SetStatus(400);
    c.SetData(Some(d));
    c.SetMessage(Some("bad"));
    errorWithData := c.Build();
  }
}
