/** What a step may return: a value or nothing, success or an error. */
module Wrappers {

  datatype Option<T> = None | Some(value: T)

  datatype Result = Success | Failure(reason: string)
}
