/**
 * A background upload: the handle `ASUploadResult` returned to the caller and
 * the record the manager tracks. The declaration of `ASUploadRequest` is not
 * part of this model; the record holds its `result`.
 */
module Upload {
  import opened Common

  /** `ASUploadResult` */
  class UploadResult {
    var sessionTask: Option<SessionTask>
    var updatedHandler: Option<HandlerId>
    var completedHandler: Option<HandlerId>

    constructor ()
      ensures sessionTask == None && updatedHandler == None && completedHandler == None
    {
      sessionTask := None;
      updatedHandler := None;
      completedHandler := None;
    }

    /** `updatedHandler(handler:)` */
    method SetUpdatedHandler(handler: Option<HandlerId>) returns (r: UploadResult)
      modifies this`updatedHandler
      ensures r == this && updatedHandler == handler
      ensures completedHandler == old(completedHandler) && sessionTask == old(sessionTask)
    {
      updatedHandler := handler;
      r := this;
    }

    /** `completedHandler(handler:)` */
    method SetCompletedHandler(handler: Option<HandlerId>) returns (r: UploadResult)
      modifies this`completedHandler
      ensures r == this && completedHandler == handler
      ensures updatedHandler == old(updatedHandler) && sessionTask == old(sessionTask)
    {
      completedHandler := handler;
      r := this;
    }
  }

  /** The manager's record of an upload. */
  datatype UploadRequest = UploadRequest(result: UploadResult)

  /**
   * `ASUploadRequest(session:request:filePath:)` as far as the manager relies on
   * it: a fresh result holding the task the upload session created, if any.
   */
  method NewUploadRequest(request: Request, newTask: Option<nat>) returns (u: UploadRequest)
    ensures fresh(u.result)
    ensures u.result.sessionTask == TaskFor(newTask, request)
    ensures u.result.updatedHandler == None && u.result.completedHandler == None
  {
    var result := new UploadResult();
    result.sessionTask := TaskFor(newTask, request);
    u := UploadRequest(result);
  }
}
