/** The `Result` type that the codec's fallible operations return. */
module Results {

  /** Either a value (`Ok`) or one of the operation's typed failures (`Err`). */
  datatype Result<T, E> = Ok(value: T) | Err(error: E)
}
