/**
 * The result shape every registry tool function returns, plus the Python
 * exceptions that can escape one of them instead.
 */
module Responses {
  import opened JsonValues

  /** The exceptions Python raises on the paths the model covers. */
  datatype PyError =
    | KeyError(key: string)   // `d[k]` on a dict without key k
    | TypeError               // subscripting a non-dict, iterating a non-iterable
    | AttributeError          // `.append` on something that is not a list

  datatype Result<T> = Ok(value: T) | Err(error: PyError)

  /**
   * `{"status": "success", "report": ...}`, `{"status": "error",
   * "error_message": ...}`, or an exception that leaves the function
   * instead of a returned dict.
   */
  datatype Response =
    | Success(report: Json)
    | Error(errorMessage: string)
    | Raised(exception: PyError)

  /** The dict a returned response is, as the agent framework receives it. */
  function AsDict(r: Response): (d: Json)
    requires !r.Raised?
    ensures d.JObject? && KeySet(d.members) == {"status", if r.Success? then "report" else "error_message"}
    ensures Get(d.members, "status") == Some(JString(if r.Success? then "success" else "error"))
    ensures r.Success? ==> Get(d.members, "report") == Some(r.report)
    ensures r.Error? ==> Get(d.members, "error_message") == Some(JString(r.errorMessage))
  {
    var status := [("status", JString(if r.Success? then "success" else "error"))];
    var payload := if r.Success? then ("report", r.report) else ("error_message", JString(r.errorMessage));
    assert status == [] + status;
    KeySetAppend([], status[0].0, status[0].1);
    KeySetAppend(status, payload.0, payload.1);
    JObject(status + [payload])
  }
}
