/** Values that stand in for the calls the health views make into code this
    model does not contain: the database driver, the cache client and the
    task-queue control plane. */
module Outcomes {

  /** A value that may be missing (Python's `None`). */
  datatype Option<+T> = None | Some(value: T)

  /** What one call into a collaborator did: it returned `value`, or it raised
      an exception whose `str()` is `msg`. */
  datatype Outcome<+T> = Ok(value: T) | Raised(msg: string)
}
