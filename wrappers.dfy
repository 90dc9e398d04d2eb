/** The optional value used for the feed's nullable fields (`lastFetchedPage`)
    and for "a fetch was started for this page". */
module Wrappers {
  datatype Option<+T> = None | Some(value: T)
}
