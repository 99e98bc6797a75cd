/** Shared value types: optional fields and unsigned 64-bit saturating arithmetic. */
module Basics {

  datatype Option<+T> = None | Some(value: T) {
    function GetOr(default: T): T {
      match this
      case Some(v) => v
      case None => default
    }
  }

  const U64_MAX: nat := 0xFFFF_FFFF_FFFF_FFFF

  type u64 = n: nat | n <= U64_MAX

  /** `u64::saturating_add`. */
  function SaturatingAdd(a: u64, b: nat): (r: u64)
    ensures a + b <= U64_MAX ==> r == a + b
    ensures a <= r
  {
    if a + b > U64_MAX then U64_MAX else a + b
  }

  function Max(a: int, b: int): (r: int)
    ensures r >= a && r >= b
    ensures r == a || r == b
  {
    if a >= b then a else b
  }
}
