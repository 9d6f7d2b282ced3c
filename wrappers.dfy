/** The nullable references of the routing layer (a traversal that yields no
    state, an unset trip id, an unconfigured route set) as an Option value. */
module Wrappers {

  datatype Option<+T> = None | Some(value: T)
}
