/** Option and fetch-outcome wrappers shared by the model. */
module Wrappers {

  /** A value that may be absent: JavaScript `undefined`/`null` is `None`. */
  datatype Option<+T> = None | Some(value: T) {
    function GetOr(default: T): T {
      match this
      case Some(v) => v
      case None => default
    }
  }

  /** A value or the error that prevented it. */
  datatype Result<+T, +E> = Ok(value: T) | Err(error: E)

  /** The outcome of an awaited request: the response body, or a rejected promise. */
  datatype Fetch<+T> = Loaded(body: T) | Failed

  /** JavaScript truthiness of an optional string: present and not "". */
  predicate Truthy(s: Option<string>) {
    s.Some? && s.value != ""
  }

  /** JavaScript truthiness of an optional number: present and not 0. */
  predicate NumTruthy(n: Option<int>) {
    n.Some? && n.value != 0
  }
}
