/** Small failure-carrying datatypes shared by the model. */
module Wrappers {

  /** A value that may be missing: JavaScript's `undefined`/`null`, or an absent member. */
  datatype Option<+T> = None | Some(value: T) {
    function GetOr(default: T): T {
      match this
      case Some(v) => v
      case None => default
    }
  }

  /** The outcome of one `fetch` followed by `response.json()`: either it threw
      somewhere (transport error, non-ok status where the caller checks it,
      a body that is not JSON), or it produced a parsed document. */
  datatype Fetched<+D> = Failed | Loaded(doc: D)
}
