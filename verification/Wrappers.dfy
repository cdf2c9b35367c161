/** The one option type every other module uses for nullable columns and partial results. */
module Wrappers {

  datatype Option<+T> = None | Some(value: T)

}
