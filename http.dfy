/**
 * The typed response wrapper: the `ASHttpResponse` builder, the outcome
 * `ASHttpResult`, and the decision tree of `httpRequest`'s completion closure.
 * JSON and UTF-8 decoding are parameters.
 */
module Http {
  import opened Common

  /** An `HTTPURLResponse`: the model reads its status code. */
  datatype HttpUrlResponse = HttpUrlResponse(statusCode: int)

  /** The `URLResponse` a task completes with: an HTTP response or some other kind. */
  datatype UrlResponse = HttpResponse(http: HttpUrlResponse) | OtherResponse

  /** `response as? HTTPURLResponse` */
  function AsHttp(response: Option<UrlResponse>): (r: Option<HttpUrlResponse>)
    ensures r.Some? <==> response.Some? && response.value.HttpResponse?
    ensures r.Some? ==> r.value == response.value.http
  {
    if response.Some? && response.value.HttpResponse? then Some(response.value.http) else None
  }

  /** A `ClosedRange<Int>` of acceptable status codes; a closed range is never empty. */
  datatype StatusRange = StatusRange(lower: int, upper: int) {
    predicate Contains(code: int) {
      lower <= code <= upper
    }
  }
  type ClosedRange = r: StatusRange | r.lower <= r.upper witness StatusRange(200, 299)

  /** `200...299` */
  const DEFAULT_VALID_STATUS_CODES: ClosedRange := StatusRange(200, 299)

  /** `ASHttpResult<T>` (and, with `T` = `Data`, `ASCacheResult`). */
  datatype HttpResult<T> =
    | Success(value: T)
    | Failure(data: Option<Bytes>, response: Option<HttpUrlResponse>, error: Option<ErrorId>)

  /** The decode branch the closure takes, by comparing `T` with `Data` and `String`. */
  datatype ResultKind = RawData | Text | Structured

  /** A value of the result type: the bytes, a string, or a decoded object. */
  datatype Value = DataValue(bytes: Bytes) | TextValue(text: string) | ObjectValue(object: nat)

  /** What `JSONDecoder().decode(T.self, from:)` does: a value, or a thrown decoding error. */
  datatype DecodeResult = Decoded(object: nat) | DecodingFailed(error: ErrorId)

  /** A result handed to a result handler. */
  datatype Delivery<T> = Delivery(handler: HandlerId, result: HttpResult<T>)

  /**
   * The guard both completion closures open with: an HTTP response whose
   * status lies in the range and no transport error.
   */
  function Validated(validStatusCodes: ClosedRange, response: Option<UrlResponse>, error: Option<ErrorId>): (r: Option<HttpUrlResponse>)
    ensures r.Some? <==> AsHttp(response).Some? && validStatusCodes.Contains(AsHttp(response).value.statusCode) && error.None?
    ensures r.Some? ==> r == AsHttp(response)
  {
    var http := AsHttp(response);
    if http.Some? && validStatusCodes.Contains(http.value.statusCode) && error.None? then http else None
  }

  /** Whether a payload decodes into the result type. */
  predicate Decodes(kind: ResultKind, bytes: Bytes, utf8: Bytes -> Option<string>, decode: Bytes -> DecodeResult) {
    match kind
    case RawData => true
    case Text => utf8(bytes).Some?
    case Structured => decode(bytes).Decoded?
  }

  /**
   * The outcome `httpRequest`'s completion closure hands to the result handler.
   * `utf8` is `String(data:encoding: .utf8)`, `decode` is the JSON decoder.
   */
  function Classify(validStatusCodes: ClosedRange, kind: ResultKind, data: Option<Bytes>,
                    response: Option<UrlResponse>, error: Option<ErrorId>,
                    utf8: Bytes -> Option<string>, decode: Bytes -> DecodeResult): (r: HttpResult<Value>)
    // rejected response, status or transport error: everything received is passed on
    ensures Validated(validStatusCodes, response, error).None? ==> r == Failure(data, AsHttp(response), error)
    // accepted response without a body
    ensures Validated(validStatusCodes, response, error).Some? && data.None? ==> r == Failure(None, AsHttp(response), error)
    // accepted response with a body: decoded per kind, the raw bytes kept on failure
    ensures Validated(validStatusCodes, response, error).Some? && data.Some? ==>
              match kind
              case RawData => r == Success(DataValue(data.value))
              case Text => r == if utf8(data.value).Some? then Success(TextValue(utf8(data.value).value))
                                else Failure(data, AsHttp(response), None)
              case Structured => r == match decode(data.value)
                                      case Decoded(o) => Success(ObjectValue(o))
                                      case DecodingFailed(e) => Failure(data, AsHttp(response), Some(e))
  {
    var http := Validated(validStatusCodes, response, error);
    if http.None? then Failure(data, AsHttp(response), error)
    else if data.None? then Failure(None, http, error)
    else
      var bytes := data.value;
      match kind
      case RawData => Success(DataValue(bytes))
      case Text => (
        match utf8(bytes)
        case Some(s) => Success(TextValue(s))
        case None => Failure(data, http, error))
      case Structured => (
        match decode(bytes)
        case Decoded(o) => Success(ObjectValue(o))
        case DecodingFailed(e) => Failure(data, http, Some(e)))
  }

  /** Success exactly when the response is accepted, a body arrived and it decodes. */
  lemma SuccessIffAcceptedAndDecoded(validStatusCodes: ClosedRange, kind: ResultKind, data: Option<Bytes>,
                                     response: Option<UrlResponse>, error: Option<ErrorId>,
                                     utf8: Bytes -> Option<string>, decode: Bytes -> DecodeResult)
    ensures Classify(validStatusCodes, kind, data, response, error, utf8, decode).Success?
            <==> (&& AsHttp(response).Some?
                  && validStatusCodes.Contains(AsHttp(response).value.statusCode)
                  && error.None?
                  && data.Some?
                  && Decodes(kind, data.value, utf8, decode))
  {
  }

  /** A failure after an accepted response keeps the body that arrived and the response. */
  lemma FailureKeepsReceivedBody(validStatusCodes: ClosedRange, kind: ResultKind, data: Option<Bytes>,
                                 response: Option<UrlResponse>, error: Option<ErrorId>,
                                 utf8: Bytes -> Option<string>, decode: Bytes -> DecodeResult)
    requires Classify(validStatusCodes, kind, data, response, error, utf8, decode).Failure?
    ensures Classify(validStatusCodes, kind, data, response, error, utf8, decode).data == data
    ensures Classify(validStatusCodes, kind, data, response, error, utf8, decode).response == AsHttp(response)
  {
  }

  /** A 404 against the default range is a failure carrying the body and the 404 response. */
  lemma NotFoundIsFailure(kind: ResultKind, body: Bytes, utf8: Bytes -> Option<string>, decode: Bytes -> DecodeResult)
    ensures Classify(DEFAULT_VALID_STATUS_CODES, kind, Some(body), Some(HttpResponse(HttpUrlResponse(404))), None, utf8, decode)
            == Failure(Some(body), Some(HttpUrlResponse(404)), None)
  {
  }

  /**
   * The manager's `globalLoggingMode`. Its declaration is not part of this
   * model; the closure only tests it against `.none` and `.all`, and
   * `LogOther` stands for every other value.
   */
  datatype LoggingMode = LogNone | LogOther | LogAll

  /** Whether the closure logs its outcome: failures unless the global mode is `.none`, successes only in `.all`. */
  function ShouldLog(logEnabled: bool, globalLoggingMode: LoggingMode, success: bool): (log: bool)
    ensures success ==> (log <==> logEnabled || globalLoggingMode == LogAll)
    ensures !success ==> (log <==> logEnabled || globalLoggingMode != LogNone)
  {
    if success then logEnabled || globalLoggingMode == LogAll
    else logEnabled || globalLoggingMode != LogNone
  }

  /** `ASHttpResponse<T>`: the chainable builder the caller configures. */
  class HttpResponse {
    var sessionTask: Option<SessionTask>
    var request: Option<Request>
    var resultHandler: Option<HandlerId>
    var validStatusCodes: ClosedRange
    var logEnabled: bool

    constructor ()
      ensures sessionTask == None && request == None && resultHandler == None
      ensures validStatusCodes == DEFAULT_VALID_STATUS_CODES && !validStatusCodes.Contains(404)
      ensures !logEnabled
    {
      sessionTask := None;
      request := None;
      resultHandler := None;
      validStatusCodes := DEFAULT_VALID_STATUS_CODES;
      logEnabled := false;
    }

    /** `response(handler:)` */
    method Response(handler: Option<HandlerId>) returns (r: HttpResponse)
      modifies this`resultHandler
      ensures r == this && resultHandler == handler
      ensures validStatusCodes == old(validStatusCodes) && logEnabled == old(logEnabled) && sessionTask == old(sessionTask)
    {
      resultHandler := handler;
      r := this;
    }

    /** `validate(statusCodes:)` */
    method Validate(statusCodes: ClosedRange) returns (r: HttpResponse)
      modifies this`validStatusCodes
      ensures r == this && validStatusCodes == statusCodes
      ensures resultHandler == old(resultHandler) && logEnabled == old(logEnabled) && sessionTask == old(sessionTask)
    {
      validStatusCodes := statusCodes;
      r := this;
    }

    /** `log()`: turns logging on; a second call changes nothing more. */
    method Log() returns (r: HttpResponse)
      modifies this`logEnabled
      ensures r == this && logEnabled
      ensures resultHandler == old(resultHandler) && validStatusCodes == old(validStatusCodes) && sessionTask == old(sessionTask)
    {
      logEnabled := true;
      r := this;
    }
  }

  /**
   * `httpRequest(session:request:)`: a fresh builder holding the request and
   * the data task created for it (`newTask` is the identity the session gives it).
   */
  method HttpRequest(request: Request, newTask: nat) returns (r: HttpResponse)
    ensures fresh(r)
    ensures r.request == Some(request) && r.sessionTask == Some(SessionTask(newTask, request))
    ensures r.resultHandler == None && r.validStatusCodes == DEFAULT_VALID_STATUS_CODES && !r.logEnabled
  {
    r := new HttpResponse();
    r.request := Some(request);
    r.sessionTask := Some(SessionTask(newTask, request));
  }

  /**
   * The completion closure of `httpRequest`: one outcome for the result handler
   * when one is set, none otherwise, and whether the exchange is logged.
   */
  method Complete(r: HttpResponse, kind: ResultKind, data: Option<Bytes>, response: Option<UrlResponse>,
                  error: Option<ErrorId>, utf8: Bytes -> Option<string>, decode: Bytes -> DecodeResult,
                  globalLoggingMode: LoggingMode)
    returns (delivered: Option<Delivery<Value>>, logged: bool)
    ensures delivered.Some? <==> r.resultHandler.Some?
    ensures delivered.Some? ==>
              delivered.value == Delivery(r.resultHandler.value,
                                          Classify(r.validStatusCodes, kind, data, response, error, utf8, decode))
    ensures logged == ShouldLog(r.logEnabled, globalLoggingMode,
                                Classify(r.validStatusCodes, kind, data, response, error, utf8, decode).Success?)
  {
    var outcome := Classify(r.validStatusCodes, kind, data, response, error, utf8, decode);
    logged := ShouldLog(r.logEnabled, globalLoggingMode, outcome.Success?);
    if r.resultHandler.Some? {
      delivered := Some(Delivery(r.resultHandler.value, outcome));
    } else {
      delivered := None;
    }
  }
}
