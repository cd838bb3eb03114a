/** Rust's fixed-width unsigned integers `u8` and `u32`, and the big-endian
    conversions `u32::to_be_bytes` and `u32::from_be_bytes` that the chunk
    layout uses for its length and CRC fields. */
module Bytes {

  newtype u8 = x: int | 0 <= x < 0x100
  newtype u32 = x: int | 0 <= x < 0x1_0000_0000

  const U32Modulus: int := 0x1_0000_0000

  /** Rust's `n as u32` on a `usize`: keeps the low 32 bits. */
  function TruncateToU32(n: nat): (r: u32)
    ensures r as int <= n
    ensures (n - r as int) % U32Modulus == 0
    ensures n < U32Modulus ==> r as int == n
  {
    (n % U32Modulus) as u32
  }

  function Pow256(k: nat): (r: nat)
    ensures r > 0
  {
    if k == 0 then 1 else 0x100 * Pow256(k - 1)
  }

  /** The number a byte string denotes when read most significant byte first. */
  function BeValue(s: seq<u8>): nat
    decreases |s|
  {
    if |s| == 0 then 0 else BeValue(s[..|s| - 1]) * 0x100 + s[|s| - 1] as int
  }

  /** The low `k` bytes of `n`, most significant first. */
  function BeBytes(n: nat, k: nat): (r: seq<u8>)
    ensures |r| == k
  {
    if k == 0 then [] else BeBytes(n / 0x100, k - 1) + [(n % 0x100) as u8]
  }

  lemma {:induction false} BeValueBound(s: seq<u8>)
    ensures BeValue(s) < Pow256(|s|)
    decreases |s|
  {
    if |s| > 0 {
      BeValueBound(s[..|s| - 1]);
    }
  }

  lemma {:induction false} BeValueOfBeBytes(n: nat, k: nat)
    requires n < Pow256(k)
    ensures BeValue(BeBytes(n, k)) == n
  {
    if k > 0 {
      var r := BeBytes(n, k);
      BeValueOfBeBytes(n / 0x100, k - 1);
      assert r[..k - 1] == BeBytes(n / 0x100, k - 1);
    }
  }

  lemma {:induction false} BeBytesOfBeValue(s: seq<u8>)
    ensures BeBytes(BeValue(s), |s|) == s
    decreases |s|
  {
    if |s| > 0 {
      var k, init := |s|, s[..|s| - 1];
      var n := BeValue(s);
      assert n / 0x100 == BeValue(init) && n % 0x100 == s[k - 1] as int;
      BeBytesOfBeValue(init);
      assert s == init + [s[k - 1]];
    }
  }

  /** `x.to_be_bytes()`: the four bytes of `x`, most significant first. */
  function ToBeBytes(x: u32): (r: seq<u8>)
    ensures |r| == 4
    ensures BeValue(r) == x as int
  {
    BeValueOfBeBytes(x as int, 4);
    BeBytes(x as int, 4)
  }

  /** `u32::from_be_bytes(b)`: reads four bytes as a number, most significant first. */
  function FromBeBytes(b: seq<u8>): u32
    requires |b| == 4
  {
    BeValueBound(b);
    BeValue(b) as u32
  }

  /** Decoding what was encoded gives the number back. */
  lemma FromToBeBytes(x: u32)
    ensures FromBeBytes(ToBeBytes(x)) == x
  {
    BeValueOfBeBytes(x as int, 4);
  }

  /** Encoding what was decoded gives the four bytes back. */
  lemma ToFromBeBytes(b: seq<u8>)
    requires |b| == 4
    ensures ToBeBytes(FromBeBytes(b)) == b
  {
    BeBytesOfBeValue(b);
  }

  /** The bytes of an ASCII string literal, as `"...".as_bytes()` gives them. */
  function Ascii(s: string): (r: seq<u8>)
    requires forall i | 0 <= i < |s| :: s[i] as int < 0x80
    ensures |r| == |s|
    ensures forall i | 0 <= i < |s| :: r[i] as int == s[i] as int
  {
    seq(|s|, i requires 0 <= i < |s| => s[i] as int as u8)
  }
}
