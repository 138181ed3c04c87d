/** The conventional Some/None datatype, used for the "empty ledger" answer of
    the queries and for a parse that fails or input that runs out. */
module Wrappers {

  datatype Option<+T> = None | Some(value: T)
}
