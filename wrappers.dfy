/** The Some/None datatype used for values that may be missing: a C# string
    that may be null, a dictionary lookup that may fail, a property getter
    that may throw. */
module Wrappers {

  datatype Option<+T> = None | Some(value: T)
}
