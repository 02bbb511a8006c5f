/** The optional value and the step outcome shared by the component models. */
module Wrappers {
  datatype Option<+T> = None | Some(value: T)

  /** What one atomic step of a machine does: it completes, it cannot be taken
      now (a held lock, an impossible choice of the environment), or the program
      fails: an assertion does not hold or a dangling pointer is followed. */
  datatype Outcome<+S> = Next(state: S) | Blocked | Fault
}
