/** The `Result` type of the Rust standard library, as a Dafny datatype. */
module Wrappers {

  datatype Result<+T, +E> = Ok(value: T) | Err(error: E)

  /** `Result::map_err`: applies `f` to an error and leaves a success alone. */
  function MapErr<T, E, F>(r: Result<T, E>, f: E -> F): Result<T, F>
  {
    match r
    case Ok(v) => Ok(v)
    case Err(e) => Err(f(e))
  }

  /** Forgets the success value, keeping only whether it succeeded. */
  function DropValue<T, E>(r: Result<T, E>): Result<(), E>
  {
    match r
    case Ok(_) => Ok(())
    case Err(e) => Err(e)
  }
}
