/** A value that may be missing: pandas' NaN cell, or an aggregate over no rows. */
module Wrappers {

  datatype Option<+T> = None | Some(value: T)
}
