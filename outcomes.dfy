/** Results of the operations the pages cannot see into. */
module Outcomes {

  /** A value or nothing; `None` also stands for "this JavaScript step throws". */
  datatype Option<T> = None | Some(value: T)

  /** What an awaited service call produced: the value its promise resolved
      to, or a rejection (network error, non-2xx status, a throw inside the
      service function). */
  datatype Outcome<T> = Ok(value: T) | Failed
}
