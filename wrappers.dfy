/** The nullable value of a cached slot: `None` plays the part of a null
    `int?` or `decimal?`. */
module Wrappers {

  datatype Option<T> = None | Some(value: T)
}
