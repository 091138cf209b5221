/** Optional values and fallible results, shared by every module. */
module Wrappers {

  datatype Option<+T> = None | Some(value: T)

  datatype Result<+T, +E> = Ok(value: T) | Err(error: E)

  /** How a database answers a commit; `CommitsSilently`: it committed and the client never saw the answer. */
  datatype Io = Commits | RollsBack | CommitsSilently
}
