/** Optional values and the outcome of a call that may raise. */
module Results {

  datatype Option<T> = None | Some(value: T) {
    function GetOr(default: T): T {
      match this
      case Some(v) => v
      case None => default
    }
  }

  /** The outcome of a call into a collaborator: its value, or the text
      `str(e)` of the exception it raised. */
  datatype Result<T> = Ok(value: T) | Err(msg: string)
}
