/** Small value wrappers shared by the channel and state-cell models. */
module Wrappers {

  /** An optional value, as returned by a peek or a take on an empty channel. */
  datatype Option<T> = None | Some(value: T)
}
