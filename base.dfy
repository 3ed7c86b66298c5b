/** Small value wrappers shared by every module: a value that may be absent
    (JavaScript `null`/`undefined`, Python `None`) and an operation that may
    fail (a thrown error). */
module Base {

  datatype Option<+T> = None | Some(value: T) {
    function GetOr(default: T): T {
      match this
      case Some(v) => v
      case None => default
    }
  }

  datatype Result<+R, +E> = Success(value: R) | Failure(error: E)
}
