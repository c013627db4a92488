/** The optional value used wherever app.py yields `None`: a missing
    field, a skipped derivation, or a computation whose exception was caught. */
module Wrappers {

  datatype Option<+T> = None | Some(value: T)
}
