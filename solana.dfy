/** The parts of the Solana/Anchor runtime the four programs rely on:
    Rust's fixed-width integers, public keys, and the `Result` an
    instruction returns (any `Err` reverts the whole instruction). */
module Solana {

  const U64Max: int := 0xFFFF_FFFF_FFFF_FFFF
  const I64Min: int := -0x8000_0000_0000_0000
  const I64Max: int := 0x7FFF_FFFF_FFFF_FFFF

  /** Rust `u64` */
  type u64 = x: int | 0 <= x <= U64Max

  /** Rust `i64`; also the type of `Clock::unix_timestamp` */
  type i64 = x: int | I64Min <= x <= I64Max

  /** A 32-byte public key; the programs only ever compare keys for equality. */
  type Pubkey = k: seq<bv8> | |k| == 32 witness seq(32, _ => 0)

  datatype Option<+T> = None | Some(value: T)

  /** The outcome of one instruction. */
  datatype Result<+T, +E> = Success(value: T) | Failure(error: E)

  /** `a.checked_add(b)` on `u64`. */
  function CheckedAddU64(a: u64, b: u64): (r: Option<u64>)
    ensures r.Some? <==> a + b <= U64Max
    ensures r.Some? ==> r.value == a + b
  {
    if a + b <= U64Max then Some(a + b) else None
  }

  /** `a.checked_mul(b)` on `u64`. */
  function CheckedMulU64(a: u64, b: u64): (r: Option<u64>)
    ensures r.Some? <==> a * b <= U64Max
    ensures r.Some? ==> r.value == a * b
  {
    if a * b <= U64Max then Some(a * b) else None
  }

  /** `a.checked_add(b)` on `i64`. */
  function CheckedAddI64(a: i64, b: i64): (r: Option<i64>)
    ensures r.Some? <==> I64Min <= a + b <= I64Max
    ensures r.Some? ==> r.value == a + b
  {
    if I64Min <= a + b <= I64Max then Some(a + b) else None
  }

  /** Multiplying by a larger factor gives a larger product. */
  lemma MulMonotone(b: nat, m: nat, n: nat)
    requires m <= n
    ensures b * m <= b * n
  {
    assert b * n == b * m + b * (n - m);
  }
}
