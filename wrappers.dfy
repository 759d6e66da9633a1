/** JavaScript's `null`-or-value, as used for `selectedAnswer` and `selectedExercise`. */
module Wrappers {
  datatype Option<+T> = None | Some(value: T)
}
