/** Optional values: `None` stands for a JavaScript result that is `undefined`,
    `NaN` or infinite, which the JSON response carries as `null`. */
module Wrappers {

  datatype Option<+T> = None | Some(value: T)

}
