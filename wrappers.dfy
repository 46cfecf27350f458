/**
 * An optional value: the ValueError of `int(x)` when parsing digits, the
 * `None` of `fetchone()` for a card not on file, and the empty session card data.
 */
module Wrappers {

  datatype Option<+T> = None | Some(value: T)

}
