/** Optional values and results, used for roles that may be unassigned and
    for a run of the dashboard that stops with an error. */
module Wrappers {

  datatype Option<+T> = None | Some(value: T)

  datatype Result<+R, +E> = Success(value: R) | Failure(error: E)
}
