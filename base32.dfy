/** Unpadded base32 of section 6 of RFC 4648, written in lower case: what
    `data_encoding::BASE32_NOPAD.encode` followed by `make_ascii_lowercase`
    produces. The bytes are read as one bit string, most significant bit first,
    which is cut into 5-bit groups; the last group is filled up with zero bits.
    `Decode` is the inverse, with the checks a strict decoder makes. */
module Base32 {
  import opened Bytes

  const ALPHABET: string := "abcdefghijklmnopqrstuvwxyz234567"

  function Pow2(k: nat): (r: nat)
    ensures r >= 1
  {
    if k == 0 then 1 else 2 * Pow2(k - 1)
  }

  /** The k-bit representation of n, most significant bit first. */
  function NatBits(n: nat, k: nat): (r: seq<bool>)
    requires n < Pow2(k)
    ensures |r| == k
  {
    if k == 0 then [] else NatBits(n / 2, k - 1) + [n % 2 == 1]
  }

  /** The number a bit string denotes, most significant bit first. */
  function BitsNat(bs: seq<bool>): (r: nat)
    ensures r < Pow2(|bs|)
  {
    if bs == [] then 0 else BitsNat(bs[..|bs| - 1]) * 2 + (if bs[|bs| - 1] then 1 else 0)
  }

  lemma {:induction false} BitsNatOfNatBits(n: nat, k: nat)
    requires n < Pow2(k)
    ensures BitsNat(NatBits(n, k)) == n
  {
    if k > 0 {
      assert NatBits(n, k)[..k - 1] == NatBits(n / 2, k - 1);
      BitsNatOfNatBits(n / 2, k - 1);
    }
  }

  lemma {:induction false} NatBitsOfBitsNat(bs: seq<bool>)
    ensures NatBits(BitsNat(bs), |bs|) == bs
  {
    if bs != [] {
      var init := bs[..|bs| - 1];
      NatBitsOfBitsNat(init);
      assert BitsNat(bs) / 2 == BitsNat(init);
      assert bs == init + [bs[|bs| - 1]];
    }
  }

  /** The character that stands for a 5-bit value. */
  function Digit(v: nat): (c: char)
    requires v < 32
    ensures c == ALPHABET[v]
  {
    if v < 26 then ('a' as int + v) as char else ('2' as int + v - 26) as char
  }

  predicate IsDigit(c: char) {
    'a' <= c <= 'z' || '2' <= c <= '7'
  }

  /** The 5-bit value a base32 character stands for. */
  function DigitValue(c: char): (v: nat)
    requires IsDigit(c)
    ensures v < 32 && Digit(v) == c
  {
    if 'a' <= c <= 'z' then c as int - 'a' as int else c as int - '2' as int + 26
  }

  /** Every byte as 8 bits, in order. */
  function ToBits(s: seq<u8>): (r: seq<bool>)
    ensures |r| == 8 * |s|
  {
    if s == [] then [] else NatBits(s[0], 8) + ToBits(s[1..])
  }

  /** Reads a bit string whose length is a multiple of 8 back into bytes. */
  function FromBits(bs: seq<bool>): (r: seq<u8>)
    requires |bs| % 8 == 0
    ensures 8 * |r| == |bs|
    decreases |bs|
  {
    if bs == [] then [] else [BitsNat(bs[..8])] + FromBits(bs[8..])
  }

  lemma {:induction false} FromToBits(s: seq<u8>)
    ensures FromBits(ToBits(s)) == s
  {
    if s != [] {
      var bs := ToBits(s);
      assert bs[..8] == NatBits(s[0], 8);
      assert bs[8..] == ToBits(s[1..]);
      BitsNatOfNatBits(s[0], 8);
      FromToBits(s[1..]);
    }
  }

  /** The zero bits the encoder appends to fill the last group. */
  function Padding(n: nat): (r: seq<bool>)
    ensures |r| == (5 - n % 5) % 5
    ensures forall i :: 0 <= i < |r| ==> !r[i]
  {
    seq((5 - n % 5) % 5, _ => false)
  }

  /** The first 5-bit group of a non-empty bit string, filled up with zero
      bits when fewer than 5 are left. */
  function Group(bs: seq<bool>): (g: seq<bool>)
    requires bs != []
    ensures |g| == 5
  {
    if |bs| >= 5 then bs[..5] else bs + Padding(|bs|)
  }

  /** What is left once the first group is taken. */
  function AfterGroup(bs: seq<bool>): (r: seq<bool>)
    ensures |r| == if |bs| >= 5 then |bs| - 5 else 0
  {
    if |bs| >= 5 then bs[5..] else []
  }

  /** Cuts a bit string into 5-bit groups, the last one padded with zero
      bits, and writes one character per group. */
  function Quintets(bs: seq<bool>): (r: string)
    ensures |r| == (|bs| + 4) / 5
    ensures forall i :: 0 <= i < |r| ==> IsDigit(r[i])
    decreases |bs|
  {
    if bs == [] then []
    else
      assert Pow2(5) == 32;
      [Digit(BitsNat(Group(bs)))] + Quintets(AfterGroup(bs))
  }

  /** The 5 bits of every character, in order. */
  function CharBits(t: string): (r: seq<bool>)
    requires forall i :: 0 <= i < |t| ==> IsDigit(t[i])
    ensures |r| == 5 * |t|
  {
    if t == [] then [] else NatBits(DigitValue(t[0]), 5) + CharBits(t[1..])
  }

  lemma {:induction false} DigitRoundTrip(v: nat)
    requires v < 32
    ensures IsDigit(Digit(v)) && DigitValue(Digit(v)) == v
  {
  }

  /** The bits of one character followed by the rest. */
  lemma {:induction false} CharBitsCons(v: nat, t: string)
    requires v < 32
    requires forall i :: 0 <= i < |t| ==> IsDigit(t[i])
    ensures CharBits([Digit(v)] + t) == NatBits(v, 5) + CharBits(t)
  {
    DigitRoundTrip(v);
    var u := [Digit(v)] + t;
    assert u[0] == Digit(v) && u[1..] == t;
  }

  /** The first group, then the rest with its filler, is the whole string
      with its filler. */
  lemma {:induction false} GroupThenRest(bs: seq<bool>)
    requires bs != []
    ensures Group(bs) + (AfterGroup(bs) + Padding(|AfterGroup(bs)|)) == bs + Padding(|bs|)
  {
    if |bs| >= 5 {
      var rest := bs[5..];
      assert (|rest| + 5) % 5 == |rest| % 5;
      assert Padding(|bs|) == Padding(|rest|);
      assert bs[..5] + (rest + Padding(|rest|)) == (bs[..5] + rest) + Padding(|rest|);
      assert bs[..5] + rest == bs;
    } else {
      assert Padding(0) == [];
    }
  }

  lemma {:induction false} CharBitsOfQuintets(bs: seq<bool>)
    ensures CharBits(Quintets(bs)) == bs + Padding(|bs|)
    decreases |bs|
  {
    if bs != [] {
      var g := Group(bs);
      var rest := AfterGroup(bs);
      assert Pow2(5) == 32;
      NatBitsOfBitsNat(g);
      CharBitsCons(BitsNat(g), Quintets(rest));
      assert Quintets(bs) == [Digit(BitsNat(g))] + Quintets(rest);
      CharBitsOfQuintets(rest);
      GroupThenRest(bs);
    } else {
      assert Padding(0) == [];
    }
  }

  /** Unpadded lower-case base32 of a byte string. */
  function Encode(s: seq<u8>): (r: string)
    ensures |r| == (8 * |s| + 4) / 5
    ensures forall i :: 0 <= i < |r| ==> IsDigit(r[i])
    ensures '-' !in r
  {
    Quintets(ToBits(s))
  }

  /** The bits that make up whole bytes among the first `len`. */
  function WholeBytes(len: nat): (n: nat)
    ensures n <= len && n % 8 == 0 && len - n < 8
  {
    len / 8 * 8
  }

  /** Decodes unpadded lower-case base32. It fails on a character outside the
      alphabet, on a length no byte string encodes to, and on non-zero
      filler bits. */
  function Decode(t: string): (r: Option<seq<u8>>)
  {
    if exists i :: 0 <= i < |t| && !IsDigit(t[i]) then None
    else
      var bits := CharBits(t);
      var n := WholeBytes(|bits|);
      if |bits| - n >= 5 || exists i :: n <= i < |bits| && bits[i] then None
      else Some(FromBits(bits[..n]))
  }

  /** A whole number of bytes padded up to whole 5-bit groups gets fewer
      than 5 filler bits, so whole bytes are what the decoder keeps. */
  lemma {:induction false} PaddedLength(k: nat, p: nat)
    requires p < 5
    ensures WholeBytes(8 * k + p) == 8 * k
  {
    assert (8 * k + p) / 8 == k;
  }

  /** The conditions under which `Decode` accepts a text. */
  lemma {:induction false} DecodeAccepts(t: string, bits: seq<bool>, n: nat)
    requires forall i :: 0 <= i < |t| ==> IsDigit(t[i])
    requires bits == CharBits(t) && n == WholeBytes(|bits|)
    requires |bits| - n < 5
    requires forall i :: n <= i < |bits| ==> !bits[i]
    ensures Decode(t) == Some(FromBits(bits[..n]))
  {
  }

  /** Decoding undoes encoding: the encoded text's bits are the bytes'
      bits followed by fewer than 5 zero bits, which the decoder drops. */
  lemma {:induction false} EncodeRoundTrip(s: seq<u8>)
    ensures Decode(Encode(s)) == Some(s)
  {
    var t := Encode(s);
    var bs := ToBits(s);
    var fill := Padding(|bs|);
    var bits := CharBits(t);
    assert bits == bs + fill by {
      CharBitsOfQuintets(bs);
    }
    var n := 8 * |s|;
    assert WholeBytes(|bits|) == n && |bits| - n < 5 by {
      PaddedLength(|s|, |fill|);
    }
    assert forall i :: n <= i < |bits| ==> !bits[i] by {
      forall i | n <= i < |bits|
        ensures !bits[i]
      {
        assert bits[i] == fill[i - |bs|];
      }
    }
    DecodeAccepts(t, bits, n);
    assert bits[..n] == bs;
    FromToBits(s);
  }
}
