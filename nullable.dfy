/** Nullable values of the front end. */
module Nullable {

  /** A nullable value: `None` stands for JavaScript's `null`. */
  datatype Option<T> = None | Some(value: T)
}
