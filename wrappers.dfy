/** The conventional optional-value datatype, used for values pandas leaves
    undefined (NaN), for lookups that can fail and for steps that raise. */
module Wrappers {

  datatype Option<+T> = None | Some(value: T)
}
