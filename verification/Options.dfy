/** Success, failure and absence, shared by every module of the model. */
module Options {

  datatype Option<+T> = None | Some(value: T) {
    /** The payload, or `default` when there is none. */
    function GetOr(default: T): T {
      match this
      case Some(v) => v
      case None => default
    }
  }

  datatype Result<+T, +E> = Ok(value: T) | Err(error: E)
}
