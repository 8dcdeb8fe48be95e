/** The conventional optional value: a JSON field or form field that may be absent,
    a nullable column, a lookup that may find nothing. */
module Wrappers {

  datatype Option<+T> = None | Some(value: T)

}
