/** Machine types and the small wrappers shared by every module of the model. */
module Basics {
  /** An 8-bit register address or register value. */
  type byte = x: int | 0 <= x < 0x100

  /** The driver's `uint32_t`: one entry of a gain table. */
  type uint32 = x: int | 0 <= x < 0x1_0000_0000

  /** A kernel error return: always negative. */
  type Errno = e: int | e < 0 witness -2

  /** `EINVAL` from the kernel's errno list; handlers return its negation. */
  const EINVAL: int := 22

  datatype Option<T> = None | Some(value: T)

  datatype Result<T> = Success(value: T) | Failure(error: Errno)
}
