/** Option and Result values shared by every module of the model. */
module Wrappers {

  /** A value that may be absent: Java's null, JavaScript's undefined or null. */
  datatype Option<+T> = None | Some(value: T)

  /** Why a backend service call ends in an exception instead of a value. */
  datatype ServiceError =
    | NotFound(entity: string, id: int)     // findById / existsById missed
    | Duplicate(field: string, value: string) // a uniqueness check failed
    | InvalidArgument(message: string)      // a validation guard threw
    | NullDereference(what: string)         // a method was called on a null field
    | IndexOutOfBounds(what: string)        // String.substring with a bad index

  /** The outcome of a backend service call: a value or the exception it throws. */
  datatype Result<+T> = Ok(value: T) | Err(error: ServiceError)

  /** What a null-skipping setter leaves in a field: the supplied value, else the kept one. */
  function Patched<T>(supplied: Option<T>, kept: T): (r: T)
    ensures supplied.Some? ==> r == supplied.value
    ensures supplied.None? ==> r == kept
  {
    if supplied.Some? then supplied.value else kept
  }

  /** The same for a field that may itself be null. */
  function PatchedOpt<T>(supplied: Option<T>, kept: Option<T>): (r: Option<T>)
    ensures supplied.Some? ==> r == supplied
    ensures supplied.None? ==> r == kept
  {
    if supplied.Some? then supplied else kept
  }
}
