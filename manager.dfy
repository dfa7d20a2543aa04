/**
 * `ASNetworkManager`: the shared tracker of background transfers. Its two maps
 * route the session callbacks, which carry only a task, back to the record of
 * that task. Handler calls are appended to `events` in the order they are made.
 */
module Manager {
  import opened Common
  import Reachability
  import Files
  import Download
  import Upload

  /** `URLSession.ResponseDisposition`, as far as the library answers it. */
  datatype Disposition = Allow | Cancel

  /** What the manager relies on of a tracked download: its handle writes to a file that exists, and it never shrinks. */
  predicate TrackedDownload(d: Download.DownloadRequest, files: map<string, Bytes>) {
    && (d.fileHandle.Some? ==> d.fileHandle.value in files)
    && 0 <= d.tempFileSize <= d.currentSize
  }

  class NetworkManager {
    var backgroundSessionCompletionHandler: Option<HandlerId>
    var isErrorLogging: bool
    const reachability: Reachability.Monitor
    const fs: Files.FileSystem
    var downloadRequests: map<SessionTask, Download.DownloadRequest>
    var uploadRequests: map<SessionTask, Upload.UploadRequest>
    var events: seq<Event>

    /** Every tracked download satisfies `TrackedDownload` against the current files. */
    ghost predicate Valid()
      reads this, fs
    {
      forall task :: task in downloadRequests ==> TrackedDownload(downloadRequests[task], fs.files)
    }

    /** `ASNetworkManager()`: no handler, logging off, nothing tracked. */
    constructor (fs: Files.FileSystem, reachability: Reachability.Monitor)
      ensures this.fs == fs && this.reachability == reachability
      ensures backgroundSessionCompletionHandler == None && !isErrorLogging
      ensures downloadRequests == map[] && uploadRequests == map[] && events == []
      ensures Valid()
    {
      this.fs := fs;
      this.reachability := reachability;
      backgroundSessionCompletionHandler := None;
      isErrorLogging := false;
      downloadRequests := map[];
      uploadRequests := map[];
      events := [];
    }

    /** `urlSessionDidFinishEvents(forBackgroundURLSession:)`: the stored handler is called once and cleared. */
    method DidFinishEvents()
      modifies this`backgroundSessionCompletionHandler, this`events
      ensures backgroundSessionCompletionHandler == None
      ensures old(backgroundSessionCompletionHandler).Some? ==>
                events == old(events) + [Finished(old(backgroundSessionCompletionHandler).value)]
      ensures old(backgroundSessionCompletionHandler).None? ==> events == old(events)
    {
      if backgroundSessionCompletionHandler.Some? {
        events := events + [Finished(backgroundSessionCompletionHandler.value)];
        backgroundSessionCompletionHandler := None;
      }
    }

    /** `didSendBodyData`: an upload's progress handler gets the totals; neither map changes. */
    method DidSendBodyData(task: SessionTask, bytesSent: int, totalBytesSent: int, totalBytesExpectedToSend: int)
      modifies this`events
      ensures task in uploadRequests ==>
                events == old(events) + UpdatedCalls(uploadRequests[task].result.updatedHandler,
                                                      totalBytesSent, totalBytesExpectedToSend)
      ensures task !in uploadRequests ==> events == old(events)
    {
      if task in uploadRequests {
        var uploadRequest := uploadRequests[task];
        if uploadRequest.result.updatedHandler.Some? {
          events := events + [Updated(uploadRequest.result.updatedHandler.value, totalBytesSent, totalBytesExpectedToSend)];
        }
      }
    }

    /**
     * `didCompleteWithError`: the download map is consulted first and the
     * upload map only for a task it does not hold; the record found is called
     * back with the error and removed.
     */
    method DidCompleteWithError(task: SessionTask, error: Option<ErrorId>)
      requires Valid()
      modifies this`downloadRequests, this`uploadRequests, this`events
      ensures Valid()
      ensures task in old(downloadRequests) ==>
                && downloadRequests == old(downloadRequests) - {task}
                && uploadRequests == old(uploadRequests)
                && events == old(events) + CompletedCalls(old(downloadRequests)[task].result.completedHandler, error)
      ensures task !in old(downloadRequests) && task in old(uploadRequests) ==>
                && downloadRequests == old(downloadRequests)
                && uploadRequests == old(uploadRequests) - {task}
                && events == old(events) + CompletedCalls(old(uploadRequests)[task].result.completedHandler, error)
      ensures task !in old(downloadRequests) && task !in old(uploadRequests) ==>
                downloadRequests == old(downloadRequests) && uploadRequests == old(uploadRequests) && events == old(events)
    {
      if task in downloadRequests {
        var downloadRequest := downloadRequests[task];
        if downloadRequest.result.completedHandler.Some? {
          events := events + [Completed(downloadRequest.result.completedHandler.value, error)];
        }
        downloadRequests := downloadRequests - {task};
      } else if task in uploadRequests {
        var uploadRequest := uploadRequests[task];
        if uploadRequest.result.completedHandler.Some? {
          events := events + [Completed(uploadRequest.result.completedHandler.value, error)];
        }
        uploadRequests := uploadRequests - {task};
      }
    }

    /**
     * `didReceive response`: cancel an untracked task, a download without a
     * handle or a response of unknown length; otherwise record the total size
     * and allow, unless the free disk space (from `attributes`) is below it:
     * then the completed handler is called with no error, the record stays, and
     * the platform's completion handler is never answered (`None`).
     */
    method DidReceiveResponse(task: SessionTask, expectedContentLength: int,
                              attributes: Option<Files.FileSystemAttributes>)
      returns (disposition: Option<Disposition>)
      requires Valid()
      requires task in downloadRequests && downloadRequests[task].fileHandle.Some? && expectedContentLength != -1 ==>
                 Files.FreeSizePresent(attributes)
      modifies this`downloadRequests, this`events
      ensures Valid()
      ensures !(task in old(downloadRequests) && old(downloadRequests)[task].fileHandle.Some? && expectedContentLength != -1) ==>
                && disposition == Some(Cancel)
                && downloadRequests == old(downloadRequests)
                && events == old(events)
      ensures task in old(downloadRequests) && old(downloadRequests)[task].fileHandle.Some? && expectedContentLength != -1 ==>
                var d := old(downloadRequests)[task];
                var totalSize := expectedContentLength + d.tempFileSize;
                && downloadRequests == old(downloadRequests)[task := d.(totalSize := totalSize)]
                && (Files.FreeDiskSpace(attributes) < totalSize ==>
                      disposition == None && events == old(events) + CompletedCalls(d.result.completedHandler, None))
                && (Files.FreeDiskSpace(attributes) >= totalSize ==>
                      disposition == Some(Allow) && events == old(events))
    {
      if !(task in downloadRequests && downloadRequests[task].fileHandle.Some? && expectedContentLength != -1) {
        return Some(Cancel);
      }
      var downloadRequest := downloadRequests[task];
      downloadRequest := downloadRequest.(totalSize := expectedContentLength + downloadRequest.tempFileSize);
      downloadRequests := downloadRequests[task := downloadRequest];
      if Files.FreeDiskSpace(attributes) < downloadRequest.totalSize {
        if downloadRequest.result.completedHandler.Some? {
          events := events + [Completed(downloadRequest.result.completedHandler.value, None)];
        }
        return None;
      }
      disposition := Some(Allow);
    }

    /**
     * `didReceive data`: for a tracked download with a handle, the chunk goes at
     * the end of its file, `currentSize` grows by the chunk's length (one
     * `Download.ReceiveStep`), and the progress handler gets the new sizes.
     */
    method DidReceiveData(task: SessionTask, data: Bytes)
      requires Valid()
      modifies this`downloadRequests, this`events, fs`files
      ensures Valid()
      ensures !(task in old(downloadRequests) && old(downloadRequests)[task].fileHandle.Some?) ==>
                && downloadRequests == old(downloadRequests)
                && events == old(events)
                && fs.files == old(fs.files)
      ensures task in old(downloadRequests) && old(downloadRequests)[task].fileHandle.Some? ==>
                var d := old(downloadRequests)[task];
                var path := d.fileHandle.value;
                var p := Download.ReceiveStep(Download.Progress(old(fs.files)[path], d.currentSize), data);
                && fs.files == old(fs.files)[path := p.file]
                && downloadRequests == old(downloadRequests)[task := d.(currentSize := p.currentSize)]
                && events == old(events) + UpdatedCalls(d.result.updatedHandler, p.currentSize, d.totalSize)
    {
      if !(task in downloadRequests && downloadRequests[task].fileHandle.Some?) {
        return;
      }
      var downloadRequest := downloadRequests[task];
      var fileHandle := downloadRequest.fileHandle.value;
      fs.AppendAtEnd(fileHandle, data);
      downloadRequest := downloadRequest.(currentSize := downloadRequest.currentSize + |data|);
      downloadRequests := downloadRequests[task := downloadRequest];
      if downloadRequest.result.updatedHandler.Some? {
        events := events + [Updated(downloadRequest.result.updatedHandler.value, downloadRequest.currentSize,
                                    downloadRequest.totalSize)];
      }
    }
  }
}
