/** The optional value used at every boundary of the tracker where the source
    can produce "nothing": a task that is not in the catalog, an upper bound of
    Infinity, a number input that parses to NaN, an empty or unreadable store. */
module Wrappers {

  datatype Option<+T> = None | Some(value: T)
}
