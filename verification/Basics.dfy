/** Types that every other module of the model shares. */
module Basics {
  datatype Option<+T> = None | Some(value: T)

  /** Largest value of the 64-bit registration counter. */
  const MAX_ID: nat := 0xFFFF_FFFF_FFFF_FFFF
}
