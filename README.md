# ASNetworking, modelled in Dafny

ASNetworking is a small Swift convenience layer over `URLSession`. A client
calls the `ASNetworking` protocol extension, which offers these entry points:

- typed HTTP requests whose completion closure sorts the outcome into
  `success(value)` or `failure(data, response, error)`;
- cache-first requests that answer from `URLCache` without creating a task;
- resumable background downloads into a file;
- background uploads;
- a reachability monitor.

The shared `ASNetworkManager` tracks downloads and uploads in two
dictionaries keyed by task. It routes the session's delegate callbacks back
to the record of the task they name. Those callbacks are bytes sent, task
completed, response received and data received.

The model holds these parts:

- **The transfer tracker** (`Manager.NetworkManager`). It is a class holding
  the two maps. It shares a `Files.FileSystem`, whose `files` field maps a path
  to its bytes. Every call of a caller-supplied closure is appended to the
  `events` log, in order.
- **The download resume protocol** (`Download.NewDownloadRequest`). It is
  stated by the predicate `Download.ResumeProtocol`. Runs of received chunks
  are specified by `Download.ReceiveStep` and `Download.ReceiveAll`, with
  lemmas about how a resumed download completes.
- **The reachability monitor** (`Reachability.Monitor`). It holds the
  debounced `flagsChanged` and the pure classification of a flag set. Lemmas
  cover whole runs of flag changes.
- **The response classification** of both copies of `httpRequest` and of
  `cacheRequest`. Each is a pure decision tree, `Http.Classify` and
  `Cache.Classify`, with the builders that configure it and the log gates.
- **The path builders and disk-space getters** of the `FileManager` extension.
- **The facade**: the `Networking` module.

Closures are represented by identities (`HandlerId`). Platform services
become parameters:

- UTF-8 decoding (`Bytes -> Option<string>`);
- JSON decoding (`Bytes -> DecodeResult`);
- the shared URL cache (`map<string, Bytes>`);
- the identity the session gives a new task (`newTask`);
- the search paths;
- the file-system attributes that give the free disk space.

The `Range` header a resumed download sends is modelled as the code writes it:
`"bytes="` followed by the decimal length already on disk, with nothing after
it. `Download.RangeHeaderValue` proves that this value reads back to that
length. `Download.RangeHeaderIsNotOpenEnded` proves that it is never the
open-ended byte-range-spec `bytes=N-` of section 2.1 of RFC 7233.

When the free-disk-space guard fires, the response callback returns without
answering the platform's completion handler, and the record stays in the map.
The model returns no disposition (`None`) on that path.

Completion looks the task up in the download map first. It consults the
upload map only for a task the download map does not hold.

## Model

| member | source | states |
|---|---|---|
| Common.Request.SetValue | Sources/ASNetworking/ASDownloadRequest.swift:65 | setting a header stores the value under that field, keeps the URL and every other header, and adds no header but that field |
| Common.TaskFor | Sources/ASNetworking/ASDownloadRequest.swift:72 | a task exists exactly when the session hands one back, and it carries the request it was created with |
| Common.UpdatedCalls | Sources/ASNetworking/ASNetworkManager.swift:81-85 | an optional progress handler is called at most once, exactly when it is set, with the two sizes |
| Common.CompletedCalls | Sources/ASNetworking/ASNetworkManager.swift:91-95 | an optional completion handler is called at most once, exactly when it is set, with the error |
| Decimal.NatToString | Sources/ASNetworking/ASDownloadRequest.swift:65 | the interpolated length is a non-empty run of decimal digits with no leading zero |
| Decimal.ParseNatToString | Sources/ASNetworking/ASDownloadRequest.swift:65 | reading the interpolated length back as a decimal number gives the length |
| Decimal.NatToStringInjective | Sources/ASNetworking/ASDownloadRequest.swift:65 | different lengths give different header texts |
| Files.FileSystem.constructor | Sources/ASNetworking/ASDownloadRequest.swift:59 | the file system starts with the given files, directories and unwritable paths |
| Files.FileSystem.OpenForWriting | Sources/ASNetworking/ASDownloadRequest.swift:60 | a handle is returned exactly for an existing, writable file, and it writes to that path |
| Files.FileSystem.CreateEmptyFile | Sources/ASNetworking/ASDownloadRequest.swift:68 | an empty file appears at a writable path; nothing changes at an unwritable one |
| Files.FileSystem.SeekToEndOfFile | Sources/ASNetworking/ASDownloadRequest.swift:62 | the end offset of an open file is its length |
| Files.FileSystem.AppendAtEnd | Sources/ASNetworking/ASNetworkManager.swift:136-137 | the written bytes go at the end of that file; no other file changes |
| Files.FileSystem.CreateDirectory | Sources/ASNetworking/FileManager+ASNetworking.swift:34 | the directory exists afterwards unless the path is unwritable, when the failure is ignored |
| Files.FirstOrEmpty | Sources/ASNetworking/FileManager+ASNetworking.swift:30 | the first search path, or the empty string when there is none |
| Files.FilePath | Sources/ASNetworking/FileManager+ASNetworking.swift:30-40 | the path starts with the base, then "/"+folder when given, and ends with "/"+file when a file is given; with neither it is the base |
| Files.LastComponentAfterSlash | Sources/ASNetworking/FileManager+ASNetworking.swift:38 | a name without '/' appended after "/" is the last component of the result |
| Files.FileNameIsLastComponent | Sources/ASNetworking/FileManager+ASNetworking.swift:37-39 | the file name can be read back from the end of the built path |
| Files.DocumentFilePath | Sources/ASNetworking/FileManager+ASNetworking.swift:29-41 | returns the built path whatever `isCreate` is; the folder directory is created only when asked, absent and writable |
| Files.CachesFilePath | Sources/ASNetworking/FileManager+ASNetworking.swift:43-53 | the same with the folder always appended |
| Files.TotalDiskSpace | Sources/ASNetworking/FileManager+ASNetworking.swift:66-74 | the system size, and 0 when the attributes cannot be read or hold no size |
| Files.FreeDiskSpace | Sources/ASNetworking/FileManager+ASNetworking.swift:76-84 | the free size, and 0 when the attributes cannot be read; a readable set must hold a free size |
| Files.UsedDiskSpace | Sources/ASNetworking/FileManager+ASNetworking.swift:86-89 | used and free space add up to the total, and used is 0 when nothing can be read |
| Download.DownloadResult.constructor | Sources/ASNetworking/ASDownloadRequest.swift:31-33 | a new result has no task and no handlers |
| Download.DownloadResult.SetUpdatedHandler | Sources/ASNetworking/ASDownloadRequest.swift:36-39 | stores the handler, returns the same object, leaves the other handler and the task alone |
| Download.DownloadResult.SetCompletedHandler | Sources/ASNetworking/ASDownloadRequest.swift:41-45 | stores the handler, returns the same object, leaves the other handler and the task alone |
| Download.RangeHeaderValue | Sources/ASNetworking/ASDownloadRequest.swift:65 | "bytes=" followed by digits that read back as the length on disk, with no leading zero (so exactly the decimal form of the length), and no trailing '-' |
| Download.RangeHeaderIsNotOpenEnded | Sources/ASNetworking/ASDownloadRequest.swift:65 | the header sent is never the open-ended form "bytes=N-" |
| Download.NewDownloadRequest | Sources/ASNetworking/ASDownloadRequest.swift:55-73 | resume: an existing file that opens keeps its bytes, its length becomes the temp and current size, and the task's request carries the Range header; an existing path that does not open gives no handle, zero sizes and the unmodified request; a missing path gets an empty file and a handle unless unwritable; total size starts at 0 |
| Download.ReceiveStep | Sources/ASNetworking/ASNetworkManager.swift:136-139 | a chunk lands after the existing bytes, and `currentSize` grows by exactly its length, so it never decreases |
| Download.ReceiveAllAppends | Sources/ASNetworking/ASNetworkManager.swift:136-139 | a run of chunks appends all of them in order and counts exactly their bytes |
| Download.ReportedSizesNonDecreasing | Sources/ASNetworking/ASNetworkManager.swift:139-143 | the sizes reported to the progress handler over a run never decrease and never fall below the starting size |
| Download.ResumeCompletesBody | Sources/ASNetworking/ASDownloadRequest.swift:59-65 | with a prefix of the body on disk, receiving the rest leaves exactly the body, and `currentSize` ends at its length |
| Upload.UploadResult.constructor | Sources/ASNetworking/Core/Upload/ASUploadResult.swift:14-16 | a new result has no task and no handlers |
| Upload.UploadResult.SetUpdatedHandler | Sources/ASNetworking/Core/Upload/ASUploadResult.swift:18-22 | stores the handler, returns the same object, leaves the other handler and the task alone |
| Upload.UploadResult.SetCompletedHandler | Sources/ASNetworking/Core/Upload/ASUploadResult.swift:24-28 | stores the handler, returns the same object, leaves the other handler and the task alone |
| Upload.NewUploadRequest | Sources/ASNetworking/ASNetworking.swift:121 | a new record whose result holds the task the session created, if any, and no handlers |
| Reachability.IsNetworkReachable | Sources/ASNetworking/Core/ASReachability.swift:112-118 | false without `.reachable`; true when reachable and no connection is required; with a required connection, true only if it can connect on demand or on traffic without intervention |
| Reachability.StatusOf | Sources/ASNetworking/Core/ASReachability.swift:102-110 | none exactly when unreachable, wwan exactly when reachable over WWAN, wifi exactly when reachable otherwise |
| Reachability.Notified | Sources/ASNetworking/Core/ASReachability.swift:93-98 | no call when the flags are the stored ones or no listener is set, otherwise one call with the new flags' status |
| Reachability.Monitor.constructor | Sources/ASNetworking/Core/ASReachability.swift:36-37 | the flags start empty, so the initial status is none; no listener |
| Reachability.Monitor.FlagsChanged | Sources/ASNetworking/Core/ASReachability.swift:93-98 | the flags are stored and the listener calls are those of `Notified`; equal flags change nothing |
| Reachability.Monitor.ReachabilityStatus | Sources/ASNetworking/Core/ASReachability.swift:102-110 | the status of the stored flags |
| Reachability.NotificationsBounded | Sources/ASNetworking/Core/ASReachability.swift:93-98 | a run of flag changes calls back at most once per change, and only the set listener |
| Reachability.RepeatedCallIsSilent | Sources/ASNetworking/Core/ASReachability.swift:94 | repeating a flag change right after itself adds no call |
| Reachability.IdenticalPairNotifiesAtMostOnce | Sources/ASNetworking/Core/ASReachability.swift:94 | two identical consecutive changes give at most one call |
| Reachability.LastNotificationIsCurrentStatus | Sources/ASNetworking/Core/ASReachability.swift:95-97 | the last status a listener received is the status of the flags stored at the end |
| Reachability.NoNotificationKeepsFlags | Sources/ASNetworking/Core/ASReachability.swift:94-95 | a run that calls nobody ends on the flags it started from |
| Http.AsHttp | Sources/ASNetworking/Core/Http/ASHttpRequestable.swift:41 | the cast succeeds exactly for an HTTP response |
| Http.Validated | Sources/ASNetworking/Core/Http/ASHttpRequestable.swift:41 | the guard passes exactly for an HTTP response with a status in the range and no error |
| Http.Classify | Sources/ASNetworking/Core/Http/ASHttpRequestable.swift:41-91 | a rejected response, status or error gives failure with everything received; no body gives failure(nil, response, error); raw bytes succeed unchanged; text succeeds when it is valid UTF-8, else fails with the bytes and no error; structured data succeeds on decoding, else fails with the bytes and the decoding error |
| Http.SuccessIffAcceptedAndDecoded | Sources/ASNetworking/Core/Http/ASHttpRequestable.swift:41-91 | success exactly when the response is accepted, a body arrived and it decodes into the result type |
| Http.FailureKeepsReceivedBody | Sources/ASNetworking/Core/Http/ASHttpRequestable.swift:46-89 | every failure carries the body that arrived and the HTTP response |
| Http.NotFoundIsFailure | Sources/ASNetworking/Core/Http/ASHttpResponse.swift:33 | a 404 against the default range fails with the body and the response |
| Http.ShouldLog | Sources/ASNetworking/Core/Http/ASHttpRequestable.swift:43-86 | a failure is logged when the builder asks or the global mode is not none; a success when the builder asks or the mode is all; so whatever logs a success also logs a failure |
| Http.HttpResponse.constructor | Sources/ASNetworking/Core/Http/ASHttpResponse.swift:30-34 | no task, request or handler; range 200...299, which excludes 404; logging off |
| Http.HttpResponse.Response | Sources/ASNetworking/Core/Http/ASHttpResponse.swift:36-40 | stores the handler, returns the same object, changes nothing else |
| Http.HttpResponse.Validate | Sources/ASNetworking/Core/Http/ASHttpResponse.swift:42-46 | replaces the range, returns the same object, changes nothing else |
| Http.HttpResponse.Log | Sources/ASNetworking/Core/Http/ASHttpResponse.swift:48-52 | turns logging on, so a second call changes nothing; returns the same object, changes nothing else |
| Http.HttpRequest | Sources/ASNetworking/Core/Http/ASHttpRequestable.swift:30-36 | a fresh builder holding the request and a task created from it, with the defaults |
| Http.Complete | Sources/ASNetworking/Core/Http/ASHttpRequestable.swift:36-92 | exactly one outcome, the classified one, when a result handler is set, none otherwise; logged per `ShouldLog` |
| LegacyHttp.ShouldLog | Sources/ASNetworking/ASHttpRequestable.swift:131-174 | a failure is logged when the builder or the manager's error logging asks; a success only when the builder does |
| LegacyHttp.GateIsCurrentGateWithoutLogAll | Sources/ASNetworking/ASHttpRequestable.swift:131-174 | the older log gate equals the current one with the error-logging flag read as a mode other than none and all (on) or none (off), so no setting of the older copy logs successes globally |
| LegacyHttp.Complete | Sources/ASNetworking/ASHttpRequestable.swift:128-180 | the older closure classifies as the current one and delivers one outcome exactly when a handler is set; logged per `LegacyHttp.ShouldLog` with the manager's error-logging flag, as it stands when the request completes |
| Cache.CacheResponse.constructor | Sources/ASNetworking/Core/ASCacheRequestable.swift:35-39 | no request, task, handler or cached data; range 200...299 |
| Cache.CacheResponse.Response | Sources/ASNetworking/Core/ASCacheRequestable.swift:42-45 | stores the handler, returns the same object, changes nothing else |
| Cache.CacheResponse.Validate | Sources/ASNetworking/Core/ASCacheRequestable.swift:48-51 | replaces the range, returns the same object, changes nothing else |
| Cache.CacheRequest | Sources/ASNetworking/Core/ASCacheRequestable.swift:57-65 | the request is stored with range 200...299 and no handler; on a hit the cached bytes are stored and no task is created; on a miss no cached data and a task for the request |
| Cache.Classify | Sources/ASNetworking/Core/ASCacheRequestable.swift:70-86 | a rejected response, status or error fails with everything received; no body gives failure(nil, response, error); otherwise the body succeeds unchanged |
| Cache.AgreesWithRawHttp | Sources/ASNetworking/Core/ASCacheRequestable.swift:70-86 | the cache path classifies exactly as a raw-bytes `httpRequest` |
| Cache.Complete | Sources/ASNetworking/Core/ASCacheRequestable.swift:66-87 | nothing without a result handler, else exactly one outcome, the classified one |
| Manager.NetworkManager.constructor | Sources/ASNetworking/ASNetworkManager.swift:27-67 | no background handler, error logging off, both maps empty |
| Manager.NetworkManager.DidFinishEvents | Sources/ASNetworking/ASNetworkManager.swift:70-75 | the stored background handler is called once if set, then cleared, so a second call calls nothing |
| Manager.NetworkManager.DidSendBodyData | Sources/ASNetworking/ASNetworkManager.swift:79-87 | an upload's progress handler is called once with the totals; neither map changes; nothing happens for an unmapped task |
| Manager.NetworkManager.DidCompleteWithError | Sources/ASNetworking/ASNetworkManager.swift:89-107 | a download-mapped task's completion handler gets the error and exactly that key is removed, the upload map unchanged; otherwise the same on the upload map only; a task in neither map changes nothing |
| Manager.NetworkManager.DidReceiveResponse | Sources/ASNetworking/ASNetworkManager.swift:111-129 | cancel for an untracked task, no handle or unknown length; otherwise the total size becomes the expected length plus the temp size, and either no disposition with the completion handler called with no error and the record kept, or allow; the free disk space is read only past the cancel guard |
| Manager.NetworkManager.DidReceiveData | Sources/ASNetworking/ASNetworkManager.swift:131-146 | for a tracked download with a handle, one `ReceiveStep` on its file and `currentSize`, and the progress handler gets the new current and total sizes; otherwise nothing changes; the tracked-download invariant holds |
| Networking.SetBackgroundSessionCompletionHandler | Sources/ASNetworking/ASNetworking.swift:32-34 | replaces the stored background handler |
| Networking.ReachabilityStatus | Sources/ASNetworking/ASNetworking.swift:36-38 | the status of the monitor's stored flags |
| Networking.SetReachabilityListener | Sources/ASNetworking/ASNetworking.swift:40-42 | replaces the listener |
| Networking.SetErrorLogging | Sources/ASNetworking/ASNetworking.swift:44-46 | sets the manager's error-logging flag, nothing else |
| Networking.HttpRequest | Sources/ASNetworking/ASNetworking.swift:56-60 | the builder of `Http.HttpRequest` |
| Networking.HttpRequestData | Sources/ASNetworking/ASNetworking.swift:62-65 | the same as `HttpRequest` on the built request |
| Networking.CacheRequest | Sources/ASNetworking/ASNetworking.swift:75-79 | the response of `Cache.CacheRequest`: the request stored, range 200...299, no handler; a hit stores the cached bytes with no task, a miss creates a task |
| Networking.CacheRequestData | Sources/ASNetworking/ASNetworking.swift:81-84 | the same as `CacheRequest` on the built request |
| Networking.DownloadRequest | Sources/ASNetworking/ASNetworking.swift:98-105 | the record follows the resume protocol; when it has a task, that task maps to it, replacing any earlier record; without a task neither map changes; the upload map never does; the result is the record's |
| Networking.DownloadRequestData | Sources/ASNetworking/ASNetworking.swift:107-110 | the same as `DownloadRequest` on the built request |
| Networking.UploadRequest | Sources/ASNetworking/ASNetworking.swift:120-127 | when a task exists it maps to the new record in the upload map only; otherwise neither map changes |
| Networking.UploadRequestData | Sources/ASNetworking/ASNetworking.swift:129-132 | the same as `UploadRequest` on the built request |

## Left out

- Main-queue dispatch (`DispatchQueue.main.async`) and the delegate queue's concurrency are not modelled. A handler call is an event appended at the moment the callback decides to make it. The progress handler of `didReceive data` therefore sees the sizes of that callback, not ones read later on the main queue.
- 64-bit integer overflow is not modelled. This affects the sizes (`Int64`), `expectedContentLength + tempFileSize` and `totalDiskSpace - freeDiskSpace`, which are unbounded integers here.
- `URLSession` construction, the four lazily built sessions, and resuming a task are not modelled. A task is an identity supplied as `newTask`, together with the request it was made from. `newTask` may be absent, which covers the registration guard of `downloadRequest`/`uploadRequest`.
- Reachability start and stop (SystemConfiguration callback registration) are not modelled. Neither is the socket-address setup of `ASReachability.init`. The manager receives the monitor it uses.
- The following are output only and are not modelled: `logPrinting`, `jsonDicToPrettyString`, `dataToPrettyString`, the `description` of `ASHttpResult`, and the elapsed-time string. Only whether a completion logs is modelled.
- `ByteCountFormatter` strings, `moveFile`, `deleteFile` and `setCacheCapacity` are thin wrappers over platform calls and are not modelled.
- `UIImageView+ASNetworking.swift` and `Package.swift` are not part of this model.
- The declarations of `ASUploadRequest`, `ASRequestData`, `URLRequest(requestData:)` and `globalLoggingMode` are not part of this model.
  - `Upload.NewUploadRequest` keeps only what the manager relies on: a result holding the task. The file to upload is not modelled.
  - `URLRequest(requestData:)` is the `build` parameter of the `requestData:` variants.
  - `Http.LoggingMode` stands for `globalLoggingMode`, with one value for every mode other than none and all.
- The older copy's builder `ASHttpResponse` (Sources/ASNetworking/ASHttpRequestable.swift:94-120) has the same fields, defaults and setters as the current one. It is modelled once, by `Http.HttpResponse`, which `LegacyHttp.Complete` reads.
- Files.FreeDiskSpace: requires a free size in readable attributes. The source force-unwraps it (Sources/ASNetworking/FileManager+ASNetworking.swift:80), so readable attributes without one crash there; that crash is not modelled.
- Files.UsedDiskSpace: requires the same, since it reads the free disk space; readable attributes without a free size crash the source.
- Manager.NetworkManager.DidReceiveResponse: requires a free size in readable attributes only past the cancel guard, where the source reads the free disk space; there readable attributes without one crash the source, which is not modelled.
- Cache.CacheRequest: requires a request with a URL. The source force-unwraps `request.url!` (Sources/ASNetworking/Core/ASCacheRequestable.swift:61), so a request without one traps there; that crash is not modelled.
- Networking.CacheRequest: requires a request with a URL, for the same force-unwrap; a request without one traps in the source.
- Networking.CacheRequestData: requires the built request to have a URL, for the same force-unwrap; a request without one traps in the source.
- Header field names are compared exactly; `URLRequest` treats them case-insensitively.
- `createDirectory` with intermediate directories is modelled as creating the one directory asked for.
- Closing the file handle, write errors, and reading a file back through the handle are not modelled. The model writes through the path the handle was opened on.
- Several things hold only as the code has them, and no stronger claim is made:
  - completion can follow a capacity abort, so a completion handler may be called twice;
  - `currentSize` may exceed `totalSize`;
  - registering a task twice silently replaces the earlier record.
