/** The optional value used for every field an event may lack (JavaScript's
    `undefined` and `null` alike) and for the results that can be `null`. */
module Wrappers {

  datatype Option<+T> = None | Some(value: T)
}
