/** `TextAsyncStatus.delete`: cancelling a text request. The status document
    (`wp.get_status(...)` with its database-supplied signals) is a function
    of the waiting prompt that this model takes as a parameter. */
module TextStatus {
  import opened Exceptions
  import opened WaitingPrompt

  /** `wp` is what `get_text_wp_by_id(id)` found, `null` when nothing was.
      The status is taken before `n` is set to 0, and returned. */
  method Delete<S>(id: string, wp: TextWaitingPrompt?, getStatus: WpSnapshot -> S) returns (r: Result<S>)
    modifies wp
    ensures wp == null ==> r == Err(RequestNotFound(id))
    ensures wp != null ==> r == Ok(getStatus(old(wp.Snapshot())))
    ensures wp != null ==> wp.Snapshot() == old(wp.Snapshot()).(n := 0)
  {
    if wp == null {
      return Err(RequestNotFound(id));
    }
    var status := getStatus(wp.Snapshot());
    wp.n := 0;
    return Ok(status);
  }

  /** Cancelling twice: the second call succeeds too, reports the request with
      nothing left to generate, and changes nothing more. */
  method DeleteTwice<S>(id: string, wp: TextWaitingPrompt, getStatus: WpSnapshot -> S)
    returns (first: Result<S>, second: Result<S>)
    modifies wp
    ensures first == Ok(getStatus(old(wp.Snapshot())))
    ensures second == Ok(getStatus(old(wp.Snapshot()).(n := 0)))
    ensures wp.Snapshot() == old(wp.Snapshot()).(n := 0)
  {
    first := Delete(id, wp, getStatus);
    second := Delete(id, wp, getStatus);
  }
}
