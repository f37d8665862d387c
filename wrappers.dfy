/** The optional value returned by a read completion: present only when the
    completion is accepted. */
module Wrappers {
  datatype Option<+T> = None | Some(value: T)
}
