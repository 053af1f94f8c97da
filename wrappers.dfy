/** Optional values, used for the agent runtime's optional final output and
    for the URL parser's failure. */
module Wrappers {

  datatype Option<+T> = None | Some(value: T)
}
