/** An optional value: an adapter index that may be absent, or memory not yet remembered. */
module Wrappers {

  datatype Option<+T> = None | Some(value: T)
}
