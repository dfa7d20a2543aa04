/**
 * The older copy of `httpRequest` (Sources/ASNetworking/ASHttpRequestable.swift).
 * Its builder and its decision tree are the same as those of the current copy,
 * `Http.HttpResponse` and `Http.Classify`; only the logging gate differs: it is
 * driven by the manager's `isErrorLoggig` flag instead of a logging mode.
 */
module LegacyHttp {
  import opened Common
  import Http
  import Manager

  /** Failures are logged when the builder or the manager asks for it; successes only when the builder does. */
  function ShouldLog(logEnabled: bool, isErrorLogging: bool, success: bool): (log: bool)
    ensures success ==> (log <==> logEnabled)
    ensures !success ==> (log <==> logEnabled || isErrorLogging)
  {
    logEnabled || (!success && isErrorLogging)
  }

  /**
   * The older gate is the current one with the manager's flag read as a
   * logging mode: on is a mode other than none and all, off is none. So the
   * older copy has no way to log successes globally.
   */
  lemma GateIsCurrentGateWithoutLogAll(logEnabled: bool, isErrorLogging: bool, success: bool)
    ensures ShouldLog(logEnabled, isErrorLogging, success)
            == Http.ShouldLog(logEnabled, if isErrorLogging then Http.LogOther else Http.LogNone, success)
  {
  }

  /** The completion closure of the older `httpRequest`; it reads the manager's error-logging flag when it runs. */
  method Complete(r: Http.HttpResponse, kind: Http.ResultKind, data: Option<Bytes>, response: Option<Http.UrlResponse>,
                  error: Option<ErrorId>, utf8: Bytes -> Option<string>, decode: Bytes -> Http.DecodeResult,
                  m: Manager.NetworkManager)
    returns (delivered: Option<Http.Delivery<Http.Value>>, logged: bool)
    ensures delivered.Some? <==> r.resultHandler.Some?
    ensures delivered.Some? ==>
              delivered.value == Http.Delivery(r.resultHandler.value,
                                               Http.Classify(r.validStatusCodes, kind, data, response, error, utf8, decode))
    ensures logged == ShouldLog(r.logEnabled, m.isErrorLogging,
                                Http.Classify(r.validStatusCodes, kind, data, response, error, utf8, decode).Success?)
  {
    var outcome := Http.Classify(r.validStatusCodes, kind, data, response, error, utf8, decode);
    logged := ShouldLog(r.logEnabled, m.isErrorLogging, outcome.Success?);
    if r.resultHandler.Some? {
      delivered := Some(Http.Delivery(r.resultHandler.value, outcome));
    } else {
      delivered := None;
    }
  }
}
