/** Optional values: an absent (`undefined`) field, a SQL NULL, or an absent row. A JSON `null` sent by a client is not modelled separately. */
module Wrappers {
  datatype Option<+T> = None | Some(value: T)
}
