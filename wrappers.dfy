/** Small value wrappers shared by every module of the model. */
module Wrappers {

  /** A value that may be absent: JavaScript's `null`/`undefined`. */
  datatype Option<+T> = None | Some(value: T)
  {
    function GetOr(default: T): T
    {
      match this
      case Some(v) => v
      case None => default
    }
  }

  /** A rejected request: `status` is `error.response.status`, `None` when
      the error carries no response at all (a network failure). */
  datatype HttpError = HttpError(status: Option<int>)

  /** The outcome of a call to the REST backend, taken as an input of the model:
      either the response body or a rejected promise with its error. */
  datatype Reply<+T> = Ok(data: T) | Failed(error: HttpError)

  /** `m` with `value` stored under `key` when there is a value, `m` itself
      otherwise: how the forms record an optional error message. */
  function PutSome<K, V>(m: map<K, V>, key: K, value: Option<V>): (r: map<K, V>)
    ensures value.None? ==> r == m
    ensures value.Some? ==> r == m[key := value.value]
  {
    if value.Some? then m[key := value.value] else m
  }
}
