/** Types and constants that several components share. */
module Basics {

  datatype Option<T> = None | Some(value: T)

  /** A reading of the clock; zero is the unset time. */
  type Moment = t: int | 0 < t witness 1

  /** One more than the greatest unsigned 64-bit number. */
  const TWO_64: nat := 0x1_0000_0000_0000_0000
}
