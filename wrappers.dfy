/** Absent-or-present values: a form entry that is missing, an optional
    key of an error record, a number conversion that yields NaN. */
module Wrappers {
  datatype Option<+T> = None | Some(value: T)
}
