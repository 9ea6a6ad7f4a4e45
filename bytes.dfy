/**
 * Machine-level values of the Solana runtime that the lottery record uses:
 * 8-bit bytes, 64-bit unsigned integers, 32-byte public keys, and the
 * little-endian byte encoding (`u64::to_le_bytes`) that seeds a ticket mint.
 */
module Bytes {

  const U64_MODULUS: int := 0x1_0000_0000_0000_0000

  type byte = x: int | 0 <= x < 256

  /** Rust's `u64`; arithmetic on it is done in `int` and checked against U64_MODULUS. */
  type u64 = x: int | 0 <= x < U64_MODULUS

  /** A 32-byte value: a public key, or a resolved oracle value. */
  type Bytes32 = s: seq<byte> | |s| == 32 witness ZeroBytes32

  type Pubkey = Bytes32

  const ZeroBytes32: seq<byte> :=
    [0, 0, 0, 0, 0, 0, 0, 0, 0, 0, 0, 0, 0, 0, 0, 0,
     0, 0, 0, 0, 0, 0, 0, 0, 0, 0, 0, 0, 0, 0, 0, 0]

  /** `Pubkey::default()`: the all-zero key. */
  const DefaultPubkey: Pubkey := ZeroBytes32

  function Pow256(k: nat): (r: nat)
    ensures r >= 1
  {
    if k == 0 then 1 else 256 * Pow256(k - 1)
  }

  lemma Pow256Of8()
    ensures Pow256(8) == U64_MODULUS
  {
  }

  /** The lowest `width` bytes of `n`, least significant first. */
  function LeBytes(n: nat, width: nat): (r: seq<byte>)
    ensures |r| == width
  {
    if width == 0 then [] else [n % 256] + LeBytes(n / 256, width - 1)
  }

  /** The number a little-endian byte string denotes. */
  function FromLeBytes(bs: seq<byte>): (r: nat)
    ensures r < Pow256(|bs|)
  {
    if bs == [] then 0 else bs[0] + 256 * FromLeBytes(bs[1..])
  }

  lemma {:induction false} LeBytesRoundTrip(n: nat, width: nat)
    requires n < Pow256(width)
    ensures FromLeBytes(LeBytes(n, width)) == n
  {
    if width > 0 {
      var rest := LeBytes(n / 256, width - 1);
      assert LeBytes(n, width)[1..] == rest;
      LeBytesRoundTrip(n / 256, width - 1);
    }
  }

  /** `u64::to_le_bytes`: the eight-byte seed of a ticket mint account. */
  function U64ToLeBytes(n: u64): (r: seq<byte>)
    ensures |r| == 8
    ensures FromLeBytes(r) == n
  {
    Pow256Of8();
    LeBytesRoundTrip(n, 8);
    LeBytes(n, 8)
  }

  /** Distinct counters give distinct seeds, so distinct mint addresses. */
  lemma U64ToLeBytesInjective(a: u64, b: u64)
    ensures U64ToLeBytes(a) == U64ToLeBytes(b) <==> a == b
  {
    // U64ToLeBytes promises that decoding gives the counter back.
  }
}
