/** Outcomes shared by every module. */
module Wrappers {

  datatype Option<+T> = None | Some(value: T)

  datatype Result<+T, +E> = Ok(value: T) | Err(error: E)

  /** What a caller learns of one remote command: the answer, or an error
      that says nothing about whether the command was executed. */
  datatype Reply = Answered | Failed(executed: bool) {
    predicate Executed() {
      Answered? || executed
    }
  }
}
