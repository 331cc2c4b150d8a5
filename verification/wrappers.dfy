/** The optional value used for every field of a complaint that the dashboard
    stores as `null` until some action fills it in. */
module Wrappers {

  datatype Option<+T> = None | Some(value: T)
}
