// Fixed-width integers, public keys and the little-endian byte codec that
// every account layout and instruction payload of both programs is built on.

/** Rust's `Result` and `Option`. */
module Wrappers {
  datatype Result<T, E> = Ok(value: T) | Err(error: E)
  datatype Option<T> = None | Some(value: T)
}

module Prims {

  const U8_LIMIT: int := 0x100
  const U32_LIMIT: int := 0x1_0000_0000
  const U64_LIMIT: int := 0x1_0000_0000_0000_0000
  const U64_MAX: int := U64_LIMIT - 1
  const I64_MIN: int := -0x8000_0000_0000_0000
  const I64_MAX: int := 0x7FFF_FFFF_FFFF_FFFF

  type u8 = x: int | 0 <= x < 0x100
  type u32 = x: int | 0 <= x < 0x1_0000_0000
  type u64 = x: int | 0 <= x < 0x1_0000_0000_0000_0000
  type i64 = x: int | -0x8000_0000_0000_0000 <= x <= 0x7FFF_FFFF_FFFF_FFFF

  /** A 32-byte public key (an account address or a program id). */
  type Pubkey = s: seq<u8> | |s| == 32 witness ZeroBytes(32)

  function ZeroBytes(n: nat): (r: seq<u8>)
    ensures |r| == n
    ensures forall i :: 0 <= i < n ==> r[i] == 0
  {
    seq(n, i => 0)
  }

  /** `Pubkey::default()`: the all-zero key. */
  function DefaultPubkey(): (k: Pubkey)
    ensures forall i :: 0 <= i < 32 ==> k[i] == 0
  {
    ZeroBytes(32)
  }

  /** Rust's `u64::saturating_add`. */
  function SaturatingAdd(a: u64, b: u64): (r: u64)
    ensures a + b <= U64_MAX ==> r == a + b
    ensures a + b > U64_MAX ==> r == U64_MAX
  {
    if a + b <= U64_MAX then a + b else U64_MAX
  }

  /** Rust's `u64::saturating_sub`. */
  function SaturatingSub(a: u64, b: u64): (r: u64)
    ensures a >= b ==> r == a - b
    ensures a < b ==> r == 0
  {
    if a >= b then a - b else 0
  }

  /** Incrementing by one is monotone and exact below `u64::MAX`. */
  lemma SaturatingIncrement(x: u64)
    ensures SaturatingAdd(x, 1) >= x
    ensures x < U64_MAX ==> SaturatingAdd(x, 1) == x + 1
    ensures x == U64_MAX ==> SaturatingAdd(x, 1) == U64_MAX
  {
  }

  /** Decrementing by one is monotone and exact above zero. */
  lemma SaturatingDecrement(x: u64)
    ensures SaturatingSub(x, 1) <= x
    ensures x > 0 ==> SaturatingSub(x, 1) == x - 1
    ensures x == 0 ==> SaturatingSub(x, 1) == 0
  {
  }

  /** An unsaturated increment is undone by a decrement. */
  lemma IncrementThenDecrement(x: u64)
    requires x < U64_MAX
    ensures SaturatingSub(SaturatingAdd(x, 1), 1) == x
  {
  }

  function Pow256(n: nat): (r: nat)
    ensures r >= 1
  {
    if n == 0 then 1 else 256 * Pow256(n - 1)
  }

  /** The `n` low-order bytes of `x`, least significant first. */
  function LeEncode(x: nat, n: nat): (r: seq<u8>)
    ensures |r| == n
  {
    if n == 0 then [] else [x % 256] + LeEncode(x / 256, n - 1)
  }

  /** The number whose little-endian bytes are `s`. */
  function LeDecode(s: seq<u8>): (r: nat)
    ensures r < Pow256(|s|)
  {
    if |s| == 0 then 0 else s[0] + 256 * LeDecode(s[1..])
  }

  /** Decoding the `n`-byte encoding of a value below 256^n gives it back. */
  lemma {:induction false} LeDecodeEncode(x: nat, n: nat)
    requires x < Pow256(n)
    ensures LeDecode(LeEncode(x, n)) == x
  {
    if n > 0 {
      var e := LeEncode(x, n);
      assert e[1..] == LeEncode(x / 256, n - 1);
      LeDecodeEncode(x / 256, n - 1);
    }
  }

  /** Encoding the decoded value of a byte string gives back that string. */
  lemma {:induction false} LeEncodeDecode(s: seq<u8>)
    ensures LeEncode(LeDecode(s), |s|) == s
  {
    if |s| > 0 {
      var x := LeDecode(s);
      assert x % 256 == s[0];
      assert x / 256 == LeDecode(s[1..]);
      LeEncodeDecode(s[1..]);
    }
  }

  /** `u64::to_le_bytes`. */
  function U64ToLe(x: u64): (r: seq<u8>)
    ensures |r| == 8
  {
    LeEncode(x, 8)
  }

  /** `u64::from_le_bytes` on exactly eight bytes. */
  function U64FromLe(s: seq<u8>): (r: u64)
    requires |s| == 8
    ensures U64ToLe(r) == s
  {
    assert Pow256(8) == U64_LIMIT;
    LeEncodeDecode(s);
    LeDecode(s)
  }

  /** `u64::from_le_bytes(x.to_le_bytes()) == x` for every `x`. */
  lemma U64LeRoundTrip(x: u64)
    ensures U64FromLe(U64ToLe(x)) == x
  {
    LeDecodeEncode(x, 8);
    assert Pow256(8) == U64_LIMIT;
  }

  /** The encoding of eight bytes' value is those bytes. */
  lemma U64LeRoundTripBytes(s: seq<u8>)
    requires |s| == 8
    ensures U64ToLe(U64FromLe(s)) == s
  {
    LeEncodeDecode(s);
  }

  /** Distinct values have distinct encodings. */
  lemma U64ToLeInjective(x: u64, y: u64)
    requires U64ToLe(x) == U64ToLe(y)
    ensures x == y
  {
    U64LeRoundTrip(x);
    U64LeRoundTrip(y);
  }
}
