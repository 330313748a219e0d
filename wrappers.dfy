/** An optional value: an option the caller left out, a layer without a texture. */
module Wrappers {

  datatype Option<+T> = None | Some(value: T)
}
