/** Optional values, used where the firmware overloads a number as "no value". */
module Wrappers {

  datatype Option<+T> = None | Some(value: T)

}
