/** Types that several models share. */
module Common {

  datatype Option<+T> = None | Some(value: T)

  type Byte = b: nat | b < 256
}
