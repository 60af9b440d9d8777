/** The optional-value type shared by the model's modules. */
module Wrappers {

  /** A value that may be absent: a callback slot that was never written, a
      dispatch that found nothing pending, a receive from an empty queue. */
  datatype Option<+T> = None | Some(value: T)
}
