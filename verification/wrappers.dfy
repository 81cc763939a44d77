/** The optional-value type used for counters that may be unavailable and
    for a port that may have no internal successor. */
module Wrappers {

  datatype Option<+T> = None | Some(value: T)
}
