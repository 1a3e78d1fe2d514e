/** Option and the two-way outcome of a remote call, shared by every module. */
module Wrappers {

  datatype Option<+T> = None | Some(value: T) {
    function GetOr(default: T): T {
      match this
      case Some(v) => v
      case None => default
    }
  }

  /** The result of one HTTP call: it resolved, or it rejected with a message. */
  datatype Outcome = Ok | Fail(message: string) {
    predicate Succeeded() { Ok? }
  }
}
