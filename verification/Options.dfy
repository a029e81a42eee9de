/** The optional values of the TypeScript and Rust sources. */
module Options {
  datatype Option<+T> = None | Some(value: T) {
    /** The `??` operator: the value, or the given default when there is none. */
    function Or(default: T): T {
      match this
      case Some(v) => v
      case None => default
    }
  }

  datatype Result<+T, +E> = Ok(value: T) | Err(error: E)
}
