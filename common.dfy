/** Types shared by every part of the ASNetworking model. */
module Common {

  /** Swift's `Optional`. */
  datatype Option<+T> = None | Some(value: T) {
    function GetOr(default: T): T {
      match this
      case Some(v) => v
      case None => default
    }
  }

  /** `Data` is a sequence of bytes. */
  type Bytes = seq<bv8>

  /**
   * The identity of a closure supplied by a caller (a progress, completion,
   * result or background handler, or a reachability listener). The model never
   * runs a closure: it records that the closure was called, and with what.
   */
  type HandlerId = nat

  /** The identity of a platform `Error` value. */
  type ErrorId = nat

  /** The parts of a `URLRequest` that the library reads or writes. */
  datatype Request = Request(url: Option<string>, headers: map<string, string>) {
    /** `setValue(_:forHTTPHeaderField:)` */
    function SetValue(value: string, field: string): (r: Request)
      ensures r.url == url && field in r.headers && r.headers[field] == value
      ensures forall f :: f in headers && f != field ==> f in r.headers && r.headers[f] == headers[f]
      ensures r.headers.Keys == headers.Keys + {field}
    {
      this.(headers := headers[field := value])
    }
  }

  /** A `URLSessionTask`: the identity the platform gave it and the request it was created with. */
  datatype SessionTask = SessionTask(id: nat, request: Request)

  /** The task the platform hands back for `request`, when it hands one back. */
  function TaskFor(newTask: Option<nat>, request: Request): (t: Option<SessionTask>)
    ensures t.Some? <==> newTask.Some?
    ensures t.Some? ==> t.value.id == newTask.value && t.value.request == request
  {
    match newTask
    case Some(id) => Some(SessionTask(id, request))
    case None => None
  }

  /** One call of a caller-supplied handler, in the order the calls are made. */
  datatype Event =
    | Updated(handler: HandlerId, current: int, total: int)
    | Completed(handler: HandlerId, error: Option<ErrorId>)
    | Finished(handler: HandlerId)

  /** The calls `handler?(current, total)` makes: one if the handler is set, none otherwise. */
  function UpdatedCalls(handler: Option<HandlerId>, current: int, total: int): (calls: seq<Event>)
    ensures |calls| <= 1
    ensures calls != [] <==> handler.Some?
    ensures calls != [] ==> calls[0] == Updated(handler.value, current, total)
  {
    if handler.Some? then [Updated(handler.value, current, total)] else []
  }

  /** The calls `handler?(error)` makes: one if the handler is set, none otherwise. */
  function CompletedCalls(handler: Option<HandlerId>, error: Option<ErrorId>): (calls: seq<Event>)
    ensures |calls| <= 1
    ensures calls != [] <==> handler.Some?
    ensures calls != [] ==> calls[0] == Completed(handler.value, error)
  {
    if handler.Some? then [Completed(handler.value, error)] else []
  }
}
