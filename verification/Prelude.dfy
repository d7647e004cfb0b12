/** Small datatypes shared by every component. */
module Prelude {

  datatype Option<+T> = None | Some(value: T) {
    function GetOr(default: T): T {
      match this
      case Some(v) => v
      case None => default
    }
  }

  datatype Result<+T, +E> = Ok(value: T) | Err(error: E)

  const U64_MAX: int := 0xFFFF_FFFF_FFFF_FFFF

  // Rust's u32 and u64; additions on them are written with the wrap or the saturation the source has.
  type Word32 = n: int | 0 <= n < 0x1_0000_0000
  type Word64 = n: int | 0 <= n <= 0xFFFF_FFFF_FFFF_FFFF

  // `+=` in a release build: one lap around the width at most.
  function WrapAdd32(a: Word32, b: Word32): Word32 {
    if a + b < 0x1_0000_0000 then a + b else a + b - 0x1_0000_0000
  }

  function WrapAdd64(a: Word64, b: Word64): Word64 {
    if a + b <= U64_MAX then a + b else a + b - U64_MAX - 1
  }

  // Rust's `saturating_add` on a 64-bit unsigned counter.
  function SaturatingAdd(a: Word64, b: nat): Word64 {
    if a + b > U64_MAX then U64_MAX else a + b
  }

  // The value an unbounded count shows in a counter of the given width.
  function Wrap32(n: nat): Word32 {
    n % 0x1_0000_0000
  }

  function Wrap64(n: nat): Word64 {
    n % 0x1_0000_0000_0000_0000
  }

  lemma WrapAdds(n: nat, b: Word64)
    ensures WrapAdd64(Wrap64(n), b) == Wrap64(n + b)
  {}

  lemma WrapCounts(n: nat)
    ensures WrapAdd32(Wrap32(n), 1) == Wrap32(n + 1)
  {}
}
