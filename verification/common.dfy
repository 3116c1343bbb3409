/**
 * Shared vocabulary of the dashboard front-end model: optional values, the
 * outcome of a call to the backend, and the error-message fallback rule used
 * by every form that talks to the backend.
 */
module Common {

  datatype Option<+T> = None | Some(value: T)

  /**
   * The outcome of one HTTP call made through the HTTP client. `Ok` carries
   * the response body (`response.data`). `Err` stands for a rejected promise;
   * `error` is the `error` field of the error response body when the server
   * sent one (`error.response?.data?.error`), and `None` when it did not
   * (network failure, no response body, no such field).
   */
  datatype Reply<+T> = Ok(data: T) | Err(error: Option<string>)

  /**
   * The message shown after a failed call: `error.response?.data?.error || fallback`.
   * JavaScript's `||` also falls back when the server sent an empty string.
   */
  function MessageOr(error: Option<string>, fallback: string): (m: string)
    ensures m == fallback || (error == Some(m) && m != "")
    ensures error.Some? && error.value != "" ==> m == error.value
    ensures (error.None? || error.value == "") ==> m == fallback
    ensures fallback != "" ==> m != ""
  {
    match error
    case Some(e) => if e != "" then e else fallback
    case None => fallback
  }
}
