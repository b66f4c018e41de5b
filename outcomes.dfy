/** The absent-or-present value shared by the other modules. */
module Outcomes {

  datatype Option<+T> = None | Some(value: T)
}
