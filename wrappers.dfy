/** Optional values and results with an error side, used for every nullable
    value and every rejected promise of the storefront. */
module Wrappers {

  datatype Option<+T> = None | Some(value: T)

  datatype Result<+R, +E> = Ok(value: R) | Err(error: E)
}
