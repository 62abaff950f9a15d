/** Optional values and results with an error, for the absent fields of a parameter
    bag and for the JavaScript exceptions the page's handlers catch. */
module Wrappers {

  datatype Option<+T> = None | Some(value: T)

  datatype Result<+T> = Ok(value: T) | Err(error: string)
}
