/**
  Shared vocabulary of the player backend: optional values, command results
  (a Tauri command returns either a value or an error message), and the
  machine integer widths the backend computes with.
 */
module Base {

  datatype Option<+T> = None | Some(value: T) {
    function GetOr(default: T): T {
      match this
      case Some(v) => v
      case None => default
    }
  }

  /** `Result<T, String>` of a command: the value, or the message shown to the user. */
  datatype Result<+T> = Ok(value: T) | Err(msg: string)

  const U64_MAX: int := 0xFFFF_FFFF_FFFF_FFFF
  const I64_MIN: int := -0x8000_0000_0000_0000
  const I64_MAX: int := 0x7FFF_FFFF_FFFF_FFFF
  const TWO_64: int := 0x1_0000_0000_0000_0000

  /** Rust `u64`. */
  type U64 = x: int | 0 <= x <= U64_MAX

  /** Rust `i64`. */
  type I64 = x: int | I64_MIN <= x <= I64_MAX

  function Min(a: int, b: int): (r: int)
    ensures r <= a && r <= b && (r == a || r == b)
  {
    if a <= b then a else b
  }

  function Max(a: int, b: int): (r: int)
    ensures r >= a && r >= b && (r == a || r == b)
  {
    if a >= b then a else b
  }

  /** `x as i64` for a `u64`: the same 64 bits read as two's complement. */
  function U64AsI64(x: U64): I64 {
    if x <= I64_MAX then x else x - TWO_64
  }

  /** `x as u64` for an `i64`: the same 64 bits read as unsigned. */
  function I64AsU64(x: I64): U64 {
    if x >= 0 then x else x + TWO_64
  }

  /** `i64` addition as a release build computes it (wrapping on overflow). */
  function WrapI64(x: int): I64 {
    (x - I64_MIN) % TWO_64 + I64_MIN
  }
}
