/** The optional values of the source: a JavaScript field or argument that may be
    `null`/`undefined` is `None`, anything else is `Some`. */
module Wrappers {

  datatype Option<+T> = None | Some(value: T)
}
