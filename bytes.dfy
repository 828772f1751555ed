/** Machine integers, Option/Result, and fixed-width big- and little-endian
    byte codecs shared by every other module. */
module Bytes {

  type u8 = x: int | 0 <= x < 256
  type u32 = x: int | 0 <= x < 0x1_0000_0000
  type u64 = x: int | 0 <= x < 0x1_0000_0000_0000_0000

  /** `usize` on the 32-bit WebAssembly target the canisters are built for. */
  const USIZE_LIMIT: nat := 0x1_0000_0000

  datatype Option<+T> = None | Some(value: T)

  datatype Result<+T, +E> = Ok(value: T) | Err(error: E)

  /** 256 to the power k: the number of values k bytes can hold. */
  function Pow256(k: nat): (r: nat)
    ensures r >= 1
  {
    if k == 0 then 1 else 256 * Pow256(k - 1)
  }

  /** The k-byte big-endian representation of n, as `to_be_bytes` gives it. */
  function BeBytes(n: nat, k: nat): (r: seq<u8>)
    requires n < Pow256(k)
    ensures |r| == k
  {
    if k == 0 then [] else BeBytes(n / 256, k - 1) + [n % 256]
  }

  /** The number a big-endian byte string denotes, as `from_be_bytes` reads it. */
  function FromBe(s: seq<u8>): (r: nat)
    ensures r < Pow256(|s|)
  {
    if s == [] then 0 else FromBe(s[..|s| - 1]) * 256 + s[|s| - 1]
  }

  /** The k-byte little-endian representation of n, as `to_le_bytes` gives it. */
  function LeBytes(n: nat, k: nat): (r: seq<u8>)
    requires n < Pow256(k)
    ensures |r| == k
  {
    if k == 0 then [] else [n % 256] + LeBytes(n / 256, k - 1)
  }

  /** The number a little-endian byte string denotes, as `from_le_bytes` reads it. */
  function FromLe(s: seq<u8>): (r: nat)
    ensures r < Pow256(|s|)
  {
    if s == [] then 0 else s[0] + 256 * FromLe(s[1..])
  }

  lemma {:induction false} FromBeBytes(n: nat, k: nat)
    requires n < Pow256(k)
    ensures FromBe(BeBytes(n, k)) == n
  {
    if k > 0 {
      var s := BeBytes(n, k);
      assert s[..k - 1] == BeBytes(n / 256, k - 1);
      FromBeBytes(n / 256, k - 1);
    }
  }

  lemma {:induction false} BeBytesFrom(s: seq<u8>)
    ensures BeBytes(FromBe(s), |s|) == s
  {
    if s != [] {
      var init := s[..|s| - 1];
      BeBytesFrom(init);
      assert FromBe(s) / 256 == FromBe(init);
      assert s == init + [s[|s| - 1]];
    }
  }

  lemma {:induction false} FromLeBytes(n: nat, k: nat)
    requires n < Pow256(k)
    ensures FromLe(LeBytes(n, k)) == n
  {
    if k > 0 {
      var s := LeBytes(n, k);
      assert s[1..] == LeBytes(n / 256, k - 1);
      FromLeBytes(n / 256, k - 1);
    }
  }

  lemma {:induction false} LeBytesFrom(s: seq<u8>)
    ensures LeBytes(FromLe(s), |s|) == s
  {
    if s != [] {
      LeBytesFrom(s[1..]);
      assert FromLe(s) / 256 == FromLe(s[1..]);
      assert FromLe(s) % 256 == s[0];
      assert s == [s[0]] + s[1..];
    }
  }

  /** Bytes that are all zero. */
  function Zeros(k: nat): (r: seq<u8>)
    ensures |r| == k && forall i :: 0 <= i < k ==> r[i] == 0
  {
    seq(k, _ => 0)
  }
}
