/** The optional value used wherever the storefront code reads something that may be absent
    (`undefined` in the storefront's JavaScript). */
module Wrappers {

  datatype Option<+T> = None | Some(value: T)
}
