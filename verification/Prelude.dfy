/** Shared vocabulary: optional results and octets. */
module Prelude {
  datatype Option<+T> = None | Some(value: T)

  /** An octet of a wire format or of a socket buffer. */
  type byte = x: int | 0 <= x < 256

  const U64_MAX: nat := 0xFFFF_FFFF_FFFF_FFFF
}
