/** The optional-value datatype used for values that may be absent, such as a
    date field whose text does not denote a calendar date. */
module Wrappers {

  datatype Option<+T> = None | Some(value: T)
}
