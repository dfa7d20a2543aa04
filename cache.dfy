/**
 * The cache lookup: `ASCacheResponse` and `cacheRequest(session:request:)`.
 * The shared `URLCache` is a parameter mapping a URL to the cached body.
 */
module Cache {
  import opened Common
  import Http

  /** `ASCacheResponse` */
  class CacheResponse {
    var request: Option<Request>
    var sessionTask: Option<SessionTask>
    var resultHandler: Option<HandlerId>
    var validStatusCodes: Http.ClosedRange
    var cachedData: Option<Bytes>

    constructor ()
      ensures request == None && sessionTask == None && resultHandler == None && cachedData == None
      ensures validStatusCodes == Http.DEFAULT_VALID_STATUS_CODES
    {
      request := None;
      sessionTask := None;
      resultHandler := None;
      validStatusCodes := Http.DEFAULT_VALID_STATUS_CODES;
      cachedData := None;
    }

    /** `response(handler:)` */
    method Response(handler: Option<HandlerId>) returns (r: CacheResponse)
      modifies this`resultHandler
      ensures r == this && resultHandler == handler
      ensures validStatusCodes == old(validStatusCodes) && cachedData == old(cachedData) && sessionTask == old(sessionTask)
    {
      resultHandler := handler;
      r := this;
    }

    /** `validate(statusCodes:)` */
    method Validate(statusCodes: Http.ClosedRange) returns (r: CacheResponse)
      modifies this`validStatusCodes
      ensures r == this && validStatusCodes == statusCodes
      ensures resultHandler == old(resultHandler) && cachedData == old(cachedData) && sessionTask == old(sessionTask)
    {
      validStatusCodes := statusCodes;
      r := this;
    }
  }

  /**
   * `cacheRequest(session:request:)`: on a hit the cached bytes are stored and
   * no task is created; on a miss a task is created. The request's URL is
   * force-unwrapped, so it must be present.
   */
  method CacheRequest(request: Request, urlCache: map<string, Bytes>, newTask: nat) returns (r: CacheResponse)
    requires request.url.Some?
    ensures fresh(r)
    ensures r.request == Some(request) && r.resultHandler == None
    ensures r.validStatusCodes == Http.DEFAULT_VALID_STATUS_CODES
    ensures request.url.value in urlCache ==> r.cachedData == Some(urlCache[request.url.value]) && r.sessionTask == None
    ensures request.url.value !in urlCache ==> r.cachedData == None && r.sessionTask == Some(SessionTask(newTask, request))
  {
    r := new CacheResponse();
    r.request := Some(request);
    var url := request.url.value;
    if url in urlCache {
      r.cachedData := Some(urlCache[url]);
    } else {
      r.sessionTask := Some(SessionTask(newTask, request));
    }
  }

  /** The outcome of a cache-miss request: the HTTP guard, then the body passed through unchanged. */
  function Classify(validStatusCodes: Http.ClosedRange, data: Option<Bytes>, response: Option<Http.UrlResponse>,
                    error: Option<ErrorId>): (r: Http.HttpResult<Bytes>)
    ensures Http.Validated(validStatusCodes, response, error).None? ==> r == Http.Failure(data, Http.AsHttp(response), error)
    ensures Http.Validated(validStatusCodes, response, error).Some? && data.None? ==> r == Http.Failure(None, Http.AsHttp(response), error)
    ensures Http.Validated(validStatusCodes, response, error).Some? && data.Some? ==> r == Http.Success(data.value)
  {
    var http := Http.Validated(validStatusCodes, response, error);
    if http.None? then Http.Failure(data, Http.AsHttp(response), error)
    else if data.None? then Http.Failure(None, http, error)
    else Http.Success(data.value)
  }

  /** The cache path classifies exactly as a raw-bytes `httpRequest`. */
  lemma AgreesWithRawHttp(validStatusCodes: Http.ClosedRange, data: Option<Bytes>, response: Option<Http.UrlResponse>,
                          error: Option<ErrorId>, utf8: Bytes -> Option<string>, decode: Bytes -> Http.DecodeResult)
    ensures var http := Http.Classify(validStatusCodes, Http.RawData, data, response, error, utf8, decode);
            var cache := Classify(validStatusCodes, data, response, error);
            && (cache.Success? <==> http.Success?)
            && (cache.Success? ==> http.value == Http.DataValue(cache.value))
            && (cache.Failure? ==> cache == Http.Failure(http.data, http.response, http.error))
  {
  }

  /**
   * The completion closure of a cache miss: nothing at all without a result
   * handler, otherwise one outcome for it.
   */
  method Complete(r: CacheResponse, data: Option<Bytes>, response: Option<Http.UrlResponse>, error: Option<ErrorId>)
    returns (delivered: Option<Http.Delivery<Bytes>>)
    ensures delivered.Some? <==> r.resultHandler.Some?
    ensures delivered.Some? ==>
              delivered.value == Http.Delivery(r.resultHandler.value, Classify(r.validStatusCodes, data, response, error))
  {
    if r.resultHandler.None? {
      return None;
    }
    delivered := Some(Http.Delivery(r.resultHandler.value, Classify(r.validStatusCodes, data, response, error)));
  }
}
