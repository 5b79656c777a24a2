/** Failure-carrying values shared by every module of the model. */
module Wrappers {

  datatype Option<+T> = None | Some(value: T)

  datatype Result<+R, +E> = Ok(value: R) | Err(error: E)

  const U8_MAX: nat := 0xFF
  const U32_MAX: nat := 0xFFFF_FFFF
  const I64_MAX: nat := 0x7FFF_FFFF_FFFF_FFFF
  const U64_MAX: nat := 0xFFFF_FFFF_FFFF_FFFF
}
