/**
 * A resumable download: the handle `ASDownloadResult` returned to the caller,
 * the record `ASDownloadRequest` the manager tracks, the resume protocol of its
 * initialiser, and what a run of received chunks does to the destination file.
 */
module Download {
  import opened Common
  import Decimal
  import Files

  /** `ASDownloadResult`: the task and the two chainable handler setters. */
  class DownloadResult {
    var sessionTask: Option<SessionTask>
    var updatedHandler: Option<HandlerId>
    var completedHandler: Option<HandlerId>

    constructor ()
      ensures sessionTask == None && updatedHandler == None && completedHandler == None
    {
      sessionTask := None;
      updatedHandler := None;
      completedHandler := None;
    }

    /** `updatedHandler(handler:)` */
    method SetUpdatedHandler(handler: Option<HandlerId>) returns (r: DownloadResult)
      modifies this`updatedHandler
      ensures r == this && updatedHandler == handler
      ensures completedHandler == old(completedHandler) && sessionTask == old(sessionTask)
    {
      updatedHandler := handler;
      r := this;
    }

    /** `completedHandler(handler:)` */
    method SetCompletedHandler(handler: Option<HandlerId>) returns (r: DownloadResult)
      modifies this`completedHandler
      ensures r == this && completedHandler == handler
      ensures updatedHandler == old(updatedHandler) && sessionTask == old(sessionTask)
    {
      completedHandler := handler;
      r := this;
    }
  }

  /**
   * `ASDownloadRequest`. Only the manager's map refers to it, so it is a value
   * that the manager replaces when a field changes. `fileHandle` is the path
   * the open handle writes to.
   */
  datatype DownloadRequest = DownloadRequest(
    result: DownloadResult,
    fileHandle: Option<string>,
    tempFileSize: int,
    currentSize: int,
    totalSize: int)

  /**
   * The `Range` header value the initialiser sets: "bytes=" and the decimal
   * length already on disk, with no '-' after it.
   */
  function RangeHeaderValue(tempFileSize: nat): (v: string)
    ensures |v| > 6 && v[..6] == "bytes="
    ensures Decimal.AllDigits(v[6..]) && Decimal.ParseNat(v[6..]) == tempFileSize
    ensures v[6] == '0' ==> v == "bytes=0"
    ensures v[|v| - 1] != '-'
  {
    var digits := Decimal.NatToString(tempFileSize);
    Decimal.ParseNatToString(tempFileSize);
    assert ("bytes=" + digits)[6..] == digits;
    "bytes=" + digits
  }

  /**
   * A byte-range-spec with a first byte position and no last byte position,
   * "bytes=N-", as section 2.1 of RFC 7233 writes an open-ended range.
   */
  predicate IsOpenEndedByteRange(v: string) {
    && |v| > 7
    && v[..6] == "bytes="
    && v[|v| - 1] == '-'
    && Decimal.AllDigits(v[6..|v| - 1])
  }

  /** The header the initialiser sends is never an open-ended byte range. */
  lemma RangeHeaderIsNotOpenEnded(tempFileSize: nat)
    ensures !IsOpenEndedByteRange(RangeHeaderValue(tempFileSize))
  {
  }

  /**
   * What `ASDownloadRequest.init(session:request:filePath:)` establishes, from
   * the file system before (`filesBefore`, `directoriesBefore`) to the files after.
   */
  ghost predicate ResumeProtocol(d: DownloadRequest, filesBefore: map<string, Bytes>, directoriesBefore: set<string>,
                                 unwritable: set<string>, filesAfter: map<string, Bytes>,
                                 request: Request, filePath: string, newTask: Option<nat>)
    reads d.result
  {
    var present := filePath in filesBefore || filePath in directoriesBefore;
    var opens := filePath in filesBefore && filePath !in unwritable;
    && d.totalSize == 0
    && d.currentSize == d.tempFileSize
    && d.result.updatedHandler == None && d.result.completedHandler == None
    // resume: the file exists and opens; its length is what is already downloaded
    && (present && opens ==>
          && d.fileHandle == Some(filePath)
          && d.tempFileSize == |filesBefore[filePath]|
          && filesAfter == filesBefore
          && d.result.sessionTask
             == TaskFor(newTask, request.SetValue(RangeHeaderValue(|filesBefore[filePath]|), "Range")))
    // the path exists but does not open: no handle, nothing on disk changes
    && (present && !opens ==>
          && d.fileHandle == None
          && d.tempFileSize == 0
          && filesAfter == filesBefore
          && d.result.sessionTask == TaskFor(newTask, request))
    // fresh: an empty file is created and opened
    && (!present ==>
          && d.tempFileSize == 0
          && filesAfter == (if filePath in unwritable then filesBefore else filesBefore[filePath := []])
          && d.fileHandle == (if filePath in unwritable then None else Some(filePath))
          && d.result.sessionTask == TaskFor(newTask, request))
  }

  /**
   * `ASDownloadRequest.init`. `newTask` is the identity the download session
   * gives the data task.
   */
  method NewDownloadRequest(fs: Files.FileSystem, request: Request, filePath: string, newTask: Option<nat>)
    returns (d: DownloadRequest)
    modifies fs`files
    ensures fresh(d.result)
    ensures ResumeProtocol(d, old(fs.files), old(fs.directories), fs.unwritable, fs.files, request, filePath, newTask)
    ensures old(fs.files).Keys <= fs.files.Keys
    ensures d.fileHandle.Some? ==> d.fileHandle.value in fs.files
  {
    var result := new DownloadResult();
    var sent := request;
    var fileHandle: Option<string> := None;
    var tempFileSize: nat := 0;
    var currentSize: nat := 0;
    if fs.FileExists(filePath) {
      var handle := fs.OpenForWriting(filePath);
      if handle.Some? {
        fileHandle := handle;
        tempFileSize := fs.SeekToEndOfFile(handle.value);
        currentSize := tempFileSize;
        sent := sent.SetValue(RangeHeaderValue(tempFileSize), "Range");
      }
    } else {
      var created := fs.CreateEmptyFile(filePath);
      fileHandle := fs.OpenForWriting(filePath);
    }
    result.sessionTask := TaskFor(newTask, sent);
    d := DownloadRequest(result, fileHandle, tempFileSize, currentSize, 0);
  }

  // ------------------------------------------------- runs of received chunks

  /** What `didReceive data` advances for one download: the destination file and `currentSize`. */
  datatype Progress = Progress(file: Bytes, currentSize: int)

  /** One `didReceive data` callback: the chunk goes at the end of the file and `currentSize` grows by its length. */
  function ReceiveStep(p: Progress, chunk: Bytes): (q: Progress)
    ensures |q.file| == |p.file| + |chunk|
    ensures q.file[..|p.file|] == p.file && q.file[|p.file|..] == chunk
    ensures q.currentSize == p.currentSize + |chunk| >= p.currentSize
  {
    Progress(p.file + chunk, p.currentSize + |chunk|)
  }

  /** A run of callbacks, one chunk after another. */
  function ReceiveAll(p: Progress, chunks: seq<Bytes>): Progress
    decreases |chunks|
  {
    if chunks == [] then p else ReceiveAll(ReceiveStep(p, chunks[0]), chunks[1..])
  }

  /** The chunks laid end to end. */
  function Concat(chunks: seq<Bytes>): Bytes
    decreases |chunks|
  {
    if chunks == [] then [] else chunks[0] + Concat(chunks[1..])
  }

  /** The `currentSize` each callback of a run reports to the updated handler. */
  function ReportedSizes(p: Progress, chunks: seq<Bytes>): seq<int>
    decreases |chunks|
  {
    if chunks == [] then []
    else var q := ReceiveStep(p, chunks[0]); [q.currentSize] + ReportedSizes(q, chunks[1..])
  }

  /** A run appends all its chunks, in order, and counts exactly their bytes. */
  lemma {:induction false} ReceiveAllAppends(p: Progress, chunks: seq<Bytes>)
    ensures ReceiveAll(p, chunks) == Progress(p.file + Concat(chunks), p.currentSize + |Concat(chunks)|)
    decreases |chunks|
  {
    if chunks != [] {
      var q := ReceiveStep(p, chunks[0]);
      ReceiveAllAppends(q, chunks[1..]);
      assert q.file + Concat(chunks[1..]) == p.file + Concat(chunks);
    }
  }

  /** The sizes reported over a run never decrease and never fall below the starting size. */
  lemma {:induction false} ReportedSizesNonDecreasing(p: Progress, chunks: seq<Bytes>)
    ensures |ReportedSizes(p, chunks)| == |chunks|
    ensures forall i, j :: 0 <= i <= j < |chunks| ==>
              p.currentSize <= ReportedSizes(p, chunks)[i] <= ReportedSizes(p, chunks)[j]
    decreases |chunks|
  {
    if chunks != [] {
      var q := ReceiveStep(p, chunks[0]);
      ReportedSizesNonDecreasing(q, chunks[1..]);
      var rest := ReportedSizes(q, chunks[1..]);
      assert ReportedSizes(p, chunks) == [q.currentSize] + rest;
      forall i, j | 0 <= i <= j < |chunks|
        ensures p.currentSize <= ReportedSizes(p, chunks)[i] <= ReportedSizes(p, chunks)[j]
      {
        if i > 0 {
          assert ReportedSizes(p, chunks)[i] == rest[i - 1];
          assert ReportedSizes(p, chunks)[j] == rest[j - 1];
        } else if j > 0 {
          assert ReportedSizes(p, chunks)[j] == rest[j - 1];
        }
      }
    }
  }

  /**
   * Resuming: with the first `tempFileSize` bytes of `body` on disk, a server
   * that sends the rest of the body leaves exactly `body` on disk, and
   * `currentSize` ends at its length, which is the `totalSize` computed from a
   * declared length of the remaining bytes.
   */
  lemma ResumeCompletesBody(body: Bytes, tempFileSize: nat, chunks: seq<Bytes>)
    requires tempFileSize <= |body|
    requires Concat(chunks) == body[tempFileSize..]
    ensures ReceiveAll(Progress(body[..tempFileSize], tempFileSize), chunks) == Progress(body, |body|)
    ensures |body| == |Concat(chunks)| + tempFileSize
  {
    ReceiveAllAppends(Progress(body[..tempFileSize], tempFileSize), chunks);
    assert body[..tempFileSize] + body[tempFileSize..] == body;
  }
}
