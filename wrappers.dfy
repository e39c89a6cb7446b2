/** The optional value used wherever the handlers may find nothing: a missing
    key, a failed parse, a model call that threw. */
module Wrappers {

  datatype Option<+T> = None | Some(value: T)
}
