/** The Option datatype used where the analyser returns `null`. */
module Wrappers {

  datatype Option<+T> = None | Some(value: T)
}
