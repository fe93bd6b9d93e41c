/**
 * Machine integers of the on-chain program and the Rust operations on them
 * that the Garage and round-settlement code relies on: checked arithmetic
 * (`checked_add`, `checked_sub`, `checked_mul`, `checked_div`), saturating
 * arithmetic, and the `as u64` cast of an `i64`.
 */
module Primitives {

  const U64_MAX: int := 0xFFFF_FFFF_FFFF_FFFF
  const U32_MAX: int := 0xFFFF_FFFF
  const I64_MIN: int := -0x8000_0000_0000_0000
  const I64_MAX: int := 0x7FFF_FFFF_FFFF_FFFF

  /** Rust `u64`. */
  type U64 = x: int | 0 <= x <= U64_MAX
  /** Rust `u32`. */
  type U32 = x: int | 0 <= x <= U32_MAX
  /** Rust `i64` (timestamps). */
  type I64 = x: int | I64_MIN <= x <= I64_MAX

  /** A Solana address, identified by its base58 text. */
  datatype Pubkey = Pubkey(base58: string)

  /** `Pubkey::default()`: 32 zero bytes. */
  const DEFAULT_PUBKEY: Pubkey := Pubkey("11111111111111111111111111111111")

  datatype Option<T> = None | Some(value: T)

  function Min(a: int, b: int): int { if a <= b then a else b }

  /** `u64::checked_add`. */
  function CheckedAdd(a: U64, b: U64): (r: Option<U64>)
    ensures r.Some? <==> a + b <= U64_MAX
    ensures r.Some? ==> r.value == a + b
  {
    if a + b <= U64_MAX then Some(a + b) else None
  }

  /** `u32::checked_add`. */
  function CheckedAddU32(a: U32, b: U32): (r: Option<U32>)
    ensures r.Some? <==> a + b <= U32_MAX
    ensures r.Some? ==> r.value == a + b
  {
    if a + b <= U32_MAX then Some(a + b) else None
  }

  /** `u64::checked_sub`: fails below zero. */
  function CheckedSub(a: U64, b: U64): (r: Option<U64>)
    ensures r.Some? <==> b <= a
    ensures r.Some? ==> r.value + b == a
  {
    if b <= a then Some(a - b) else None
  }

  /** `u64::checked_mul`. */
  function CheckedMul(a: U64, b: U64): (r: Option<U64>)
    ensures r.Some? <==> a * b <= U64_MAX
    ensures r.Some? ==> r.value == a * b
  {
    if a * b <= U64_MAX then Some(a * b) else None
  }

  /** `u64::checked_div`: fails only on a zero divisor. */
  function CheckedDiv(a: U64, b: U64): (r: Option<U64>)
    ensures r.Some? <==> b != 0
    ensures r.Some? ==> r.value * b <= a < (r.value + 1) * b
  {
    if b == 0 then None else Some(a / b)
  }

  /** `u64::saturating_sub`: clamps at zero. */
  function SaturatingSub(a: U64, b: U64): (r: U64)
    ensures r <= a
    ensures b <= a ==> r + b == a
    ensures a < b ==> r == 0
  {
    if b <= a then a - b else 0
  }

  /** `u64::saturating_mul`: clamps at `u64::MAX`. */
  function SaturatingMul(a: U64, b: U64): (r: U64)
    ensures a * b <= U64_MAX ==> r == a * b
    ensures a * b > U64_MAX ==> r == U64_MAX
  {
    if a * b <= U64_MAX then a * b else U64_MAX
  }

  /** `i64::saturating_sub`: clamps into the `i64` range. */
  function SaturatingSubI64(a: I64, b: I64): (r: I64)
    ensures I64_MIN <= a - b <= I64_MAX ==> r == a - b
    ensures a - b > I64_MAX ==> r == I64_MAX
    ensures a - b < I64_MIN ==> r == I64_MIN
  {
    if a - b > I64_MAX then I64_MAX else if a - b < I64_MIN then I64_MIN else a - b
  }

  /** `x as u64` for an `i64`: two's-complement reinterpretation, so negative values wrap. */
  function AsU64(x: I64): (r: U64)
    ensures 0 <= x ==> r == x
    ensures x < 0 ==> r == x + U64_MAX + 1 && r > I64_MAX
  {
    if x >= 0 then x else x + U64_MAX + 1
  }

  lemma {:induction false} SaturatingMulMonotone(a: U64, b: U64, k: U64)
    requires a <= b
    ensures SaturatingMul(a, k) <= SaturatingMul(b, k)
  {
    if b * k <= U64_MAX {
      MulMonotone(a, b, k);
    }
  }

  lemma {:induction false} MulMonotone(a: nat, b: nat, k: nat)
    requires a <= b
    ensures a * k <= b * k
  {
    assert b * k == a * k + (b - a) * k;
  }

  lemma DivMonotone(a: nat, b: nat, d: nat)
    requires a <= b && d > 0
    ensures a / d <= b / d
  {
    if a / d > b / d {
      MulMonotone(b / d + 1, a / d, d);
      assert false;
    }
  }
}
