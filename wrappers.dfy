/** The optional value used wherever the scripts either produce a value or
    raise (an exception that the caller turns into "no value"). */
module Wrappers {

  datatype Option<+T> = None | Some(value: T)

}
