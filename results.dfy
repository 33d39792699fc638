/** The outcome of an operation that the Python code can abort with an exception. */
module Results {

  datatype Result<T, E> = Ok(value: T) | Err(error: E)
}
