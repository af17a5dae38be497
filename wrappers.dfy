/** Option, the model's stand-in for JavaScript's `null` / `undefined`
    and, for numbers, for NaN. */
module Wrappers {

  datatype Option<+T> = None | Some(value: T)
}
