/** Option stands for a `shared_ptr` that may be null: `None` is the null pointer. */
module Wrappers {
  datatype Option<+T> = None | Some(value: T)
}
