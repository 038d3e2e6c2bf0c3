/** Small value types shared by the modules of this model. */
module Wrappers {

  /** Go's nil-able values: `None` stands for `nil`. */
  datatype Option<+T> = None | Some(value: T)

  /** A Go `error` value; only its message is modelled. */
  datatype Error = Error(message: string)
}
