/** The nullable references of the activity (a device name, a GATT handle, a
    notification value) are modelled as Option values. */
module Wrappers {

  datatype Option<+T> = None | Some(value: T)
}
