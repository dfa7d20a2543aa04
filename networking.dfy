/**
 * The `ASNetworking` protocol extension: the entry points a client calls. Each
 * one reaches the shared manager, which is passed in explicitly here. The
 * `requestData:` variants take the builder of `URLRequest(requestData:)` as a
 * parameter, since neither `ASRequestData` nor that initialiser is part of
 * this model. Resuming a task is not modelled.
 */
module Networking {
  import opened Common
  import Reachability
  import Http
  import Cache
  import Download
  import Upload
  import Manager

  /** `setBackgroundSessionCompletionHandler(backgroundSessionCompletionHandler:)` */
  method SetBackgroundSessionCompletionHandler(m: Manager.NetworkManager, handler: Option<HandlerId>)
    modifies m`backgroundSessionCompletionHandler
    ensures m.backgroundSessionCompletionHandler == handler
  {
    m.backgroundSessionCompletionHandler := handler;
  }

  /** `reachability()`: the status of the flags the monitor last stored. */
  method ReachabilityStatus(m: Manager.NetworkManager) returns (status: Reachability.Status)
    ensures status == Reachability.StatusOf(m.reachability.currentFlags)
  {
    status := m.reachability.ReachabilityStatus();
  }

  /** `setReachabilityListener(listener:)` */
  method SetReachabilityListener(m: Manager.NetworkManager, listener: HandlerId)
    modifies m.reachability`listener
    ensures m.reachability.listener == Some(listener)
  {
    m.reachability.listener := Some(listener);
  }

  /** `setErrorLogging(isLogging:)` */
  method SetErrorLogging(m: Manager.NetworkManager, isLogging: bool)
    modifies m`isErrorLogging
    ensures m.isErrorLogging == isLogging
  {
    m.isErrorLogging := isLogging;
  }

  /** `httpRequest(_:)` */
  method HttpRequest(request: Request, newTask: nat) returns (r: Http.HttpResponse)
    ensures fresh(r)
    ensures r.request == Some(request) && r.sessionTask == Some(SessionTask(newTask, request))
    ensures r.resultHandler == None && r.validStatusCodes == Http.DEFAULT_VALID_STATUS_CODES && !r.logEnabled
  {
    r := Http.HttpRequest(request, newTask);
  }

  /** `httpRequest(requestData:)`: `httpRequest(_:)` on the built request. */
  method HttpRequestData<D>(requestData: D, build: D -> Request, newTask: nat) returns (r: Http.HttpResponse)
    ensures fresh(r)
    ensures r.request == Some(build(requestData)) && r.sessionTask == Some(SessionTask(newTask, build(requestData)))
    ensures r.resultHandler == None && r.validStatusCodes == Http.DEFAULT_VALID_STATUS_CODES && !r.logEnabled
  {
    r := HttpRequest(build(requestData), newTask);
  }

  /** `cacheRequest(_:)` */
  method CacheRequest(request: Request, urlCache: map<string, Bytes>, newTask: nat) returns (r: Cache.CacheResponse)
    requires request.url.Some?
    ensures fresh(r)
    ensures r.request == Some(request) && r.resultHandler == None
    ensures r.validStatusCodes == Http.DEFAULT_VALID_STATUS_CODES
    ensures request.url.value in urlCache ==> r.cachedData == Some(urlCache[request.url.value]) && r.sessionTask == None
    ensures request.url.value !in urlCache ==> r.cachedData == None && r.sessionTask == Some(SessionTask(newTask, request))
  {
    r := Cache.CacheRequest(request, urlCache, newTask);
  }

  /** `cacheRequest(requestData:)`: `cacheRequest(_:)` on the built request. */
  method CacheRequestData<D>(requestData: D, build: D -> Request, urlCache: map<string, Bytes>, newTask: nat)
    returns (r: Cache.CacheResponse)
    requires build(requestData).url.Some?
    ensures fresh(r)
    ensures r.request == Some(build(requestData)) && r.resultHandler == None
    ensures r.validStatusCodes == Http.DEFAULT_VALID_STATUS_CODES
    ensures build(requestData).url.value in urlCache ==>
              r.cachedData == Some(urlCache[build(requestData).url.value]) && r.sessionTask == None
    ensures build(requestData).url.value !in urlCache ==>
              r.cachedData == None && r.sessionTask == Some(SessionTask(newTask, build(requestData)))
  {
    r := CacheRequest(build(requestData), urlCache, newTask);
  }

  /**
   * `downloadRequest(_:filePath:)`: builds the record (the resume protocol of
   * `Download.ResumeProtocol`) and, when it has a task, maps the task to it,
   * replacing any earlier record of that task. `record` is the record built.
   */
  method DownloadRequest(m: Manager.NetworkManager, request: Request, filePath: string, newTask: Option<nat>)
    returns (result: Download.DownloadResult, ghost record: Download.DownloadRequest)
    requires m.Valid()
    modifies m`downloadRequests, m.fs`files
    ensures m.Valid()
    ensures fresh(result) && record.result == result
    ensures Download.ResumeProtocol(record, old(m.fs.files), old(m.fs.directories), m.fs.unwritable, m.fs.files,
                                    request, filePath, newTask)
    ensures result.sessionTask.Some? <==> newTask.Some?
    ensures result.sessionTask.Some? ==> m.downloadRequests == old(m.downloadRequests)[result.sessionTask.value := record]
    ensures result.sessionTask.None? ==> m.downloadRequests == old(m.downloadRequests)
    ensures m.uploadRequests == old(m.uploadRequests)
  {
    var downloadRequest := Download.NewDownloadRequest(m.fs, request, filePath, newTask);
    record := downloadRequest;
    if downloadRequest.result.sessionTask.Some? {
      m.downloadRequests := m.downloadRequests[downloadRequest.result.sessionTask.value := downloadRequest];
    }
    result := downloadRequest.result;
  }

  /** `downloadRequest(requestData:filePath:)`: `downloadRequest(_:filePath:)` on the built request. */
  method DownloadRequestData<D>(m: Manager.NetworkManager, requestData: D, build: D -> Request, filePath: string,
                                newTask: Option<nat>)
    returns (result: Download.DownloadResult, ghost record: Download.DownloadRequest)
    requires m.Valid()
    modifies m`downloadRequests, m.fs`files
    ensures m.Valid()
    ensures fresh(result) && record.result == result
    ensures Download.ResumeProtocol(record, old(m.fs.files), old(m.fs.directories), m.fs.unwritable, m.fs.files,
                                    build(requestData), filePath, newTask)
    ensures result.sessionTask.Some? <==> newTask.Some?
    ensures result.sessionTask.Some? ==> m.downloadRequests == old(m.downloadRequests)[result.sessionTask.value := record]
    ensures result.sessionTask.None? ==> m.downloadRequests == old(m.downloadRequests)
    ensures m.uploadRequests == old(m.uploadRequests)
  {
    result, record := DownloadRequest(m, build(requestData), filePath, newTask);
  }

  /**
   * `uploadRequest(_:filePath:)`: builds the record and, when it has a task,
   * maps the task to it; the download map is untouched.
   */
  method UploadRequest(m: Manager.NetworkManager, request: Request, newTask: Option<nat>)
    returns (result: Upload.UploadResult)
    modifies m`uploadRequests
    ensures fresh(result)
    ensures result.sessionTask == TaskFor(newTask, request)
    ensures result.updatedHandler == None && result.completedHandler == None
    ensures newTask.Some? ==>
              m.uploadRequests == old(m.uploadRequests)[SessionTask(newTask.value, request) := Upload.UploadRequest(result)]
    ensures newTask.None? ==> m.uploadRequests == old(m.uploadRequests)
    ensures m.downloadRequests == old(m.downloadRequests)
  {
    var uploadRequest := Upload.NewUploadRequest(request, newTask);
    if uploadRequest.result.sessionTask.Some? {
      m.uploadRequests := m.uploadRequests[uploadRequest.result.sessionTask.value := uploadRequest];
    }
    result := uploadRequest.result;
  }

  /** `uploadRequest(requestData:filePath:)`: `uploadRequest(_:filePath:)` on the built request. */
  method UploadRequestData<D>(m: Manager.NetworkManager, requestData: D, build: D -> Request, newTask: Option<nat>)
    returns (result: Upload.UploadResult)
    modifies m`uploadRequests
    ensures fresh(result)
    ensures result.sessionTask == TaskFor(newTask, build(requestData))
    ensures result.updatedHandler == None && result.completedHandler == None
    ensures newTask.Some? ==>
              m.uploadRequests
              == old(m.uploadRequests)[SessionTask(newTask.value, build(requestData)) := Upload.UploadRequest(result)]
    ensures newTask.None? ==> m.uploadRequests == old(m.uploadRequests)
    ensures m.downloadRequests == old(m.downloadRequests)
  {
    result := UploadRequest(m, build(requestData), newTask);
  }
}
