/** Python's "no value" results (`False` from a failed extraction, `None` from a
    dropped record) are modelled by this option type. */
module Wrappers {

  datatype Option<+T> = None | Some(value: T)
}
