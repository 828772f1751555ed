/** The value types of the ledger (rust/src/types.rs): accounts and their
    ICRC-1 textual encoding, the token-id/mint-index codec, the fixed
    78-byte history record, the error enums and the call arguments. */
module Types {
  import opened Bytes
  import Crc32
  import Base32

  /** A principal's bytes; `Principal::from_slice` refuses more than 29. */
  type Principal = p: seq<u8> | |p| <= 29

  /** A subaccount is exactly 32 bytes. */
  type Subaccount = s: seq<u8> | |s| == 32 witness Zeros(32)

  /** The subaccount used by default: 32 zero bytes. */
  const DEFAULT_SUBACCOUNT: Subaccount := Zeros(32)

  type Memo = s: seq<u8> | |s| == 32 witness Zeros(32)

  datatype Value = Nat(n: nat) | Int(i: int) | Text(t: string) | Blob(b: seq<u8>)

  datatype Account = Account(owner: Principal, subaccount: Option<Subaccount>)

  // ---------------------------------------------------------------------
  // Account normalisation and equality

  function SubaccountOrDefault(a: Account): Subaccount {
    match a.subaccount
    case None => DEFAULT_SUBACCOUNT
    case Some(s) => s
  }

  /** The custom `PartialEq for Account`: no subaccount and the default
      subaccount are the same account. */
  predicate Same(a: Account, b: Account) {
    a.owner == b.owner && SubaccountOrDefault(a) == SubaccountOrDefault(b)
  }

  /** `Account::new`: an all-zero subaccount becomes no subaccount. */
  function NewAccount(owner: Principal, subaccount: Option<Subaccount>): (a: Account)
    ensures a.owner == owner
    ensures a.subaccount != Some(DEFAULT_SUBACCOUNT)
    ensures Same(a, Account(owner, subaccount))
    ensures subaccount != Some(DEFAULT_SUBACCOUNT) ==> a.subaccount == subaccount
  {
    Account(owner, if subaccount == Some(DEFAULT_SUBACCOUNT) then None else subaccount)
  }

  /** `Account::minter`: the canister's own principal without subaccount. */
  function Minter(canister: Principal): Account {
    Account(canister, None)
  }

  lemma {:induction false} SameIsEquivalence(a: Account, b: Account, c: Account)
    ensures Same(a, a)
    ensures Same(a, b) ==> Same(b, a)
    ensures Same(a, b) && Same(b, c) ==> Same(a, c)
    ensures Same(Account(a.owner, None), Account(a.owner, Some(DEFAULT_SUBACCOUNT)))
  {
  }

  /** Two accounts are the same exactly when `Account::new` makes them equal. */
  lemma {:induction false} SameIffSameNormalForm(a: Account, b: Account)
    ensures Same(a, b) <==> NewAccount(a.owner, a.subaccount) == NewAccount(b.owner, b.subaccount)
  {
    var na, nb := NewAccount(a.owner, a.subaccount), NewAccount(b.owner, b.subaccount);
    assert SubaccountOrDefault(na) == SubaccountOrDefault(a);
    assert SubaccountOrDefault(nb) == SubaccountOrDefault(b);
    if Same(a, b) {
      assert na.subaccount == nb.subaccount;
    }
  }

  // ---------------------------------------------------------------------
  // ICRC-1 textual encoding (`Display for Account`)

  /** The number of zero bytes s starts with. */
  function LeadingZeros(s: seq<u8>): (n: nat)
    ensures n <= |s|
    ensures forall i :: 0 <= i < n ==> s[i] == 0
    ensures n < |s| ==> s[n] != 0
  {
    if s == [] || s[0] != 0 then 0 else 1 + LeadingZeros(s[1..])
  }

  /** s without its leading zero bytes. */
  function Significant(s: seq<u8>): seq<u8> {
    s[LeadingZeros(s)..]
  }

  /** What a subaccount adds to the checksummed bytes: nothing for the
      default one, else its significant bytes, their count and 127. */
  function SubaccountSuffix(s: Subaccount): seq<u8> {
    var sig := Significant(s);
    if sig == [] then [] else sig + [|sig|, 127]
  }

  /** The bytes the checksum is taken over. */
  function Payload(a: Account): seq<u8> {
    a.owner + match a.subaccount
              case None => []
              case Some(s) => SubaccountSuffix(s)
  }

  /** The 4-byte big-endian form of a u32. */
  function Be32(n: u32): (r: seq<u8>)
    ensures |r| == 4 && FromBe(r) == n
  {
    assert Pow256(4) == 0x1_0000_0000;
    FromBeBytes(n, 4);
    BeBytes(n, 4)
  }

  /** The base32 text with a dash after every group of 5 characters that is
      followed by more characters. */
  function Dashed(s: string): string
    decreases |s|
  {
    if |s| > 5 then s[..5] + "-" + Dashed(s[5..]) else s
  }

  /** The text with every dash deleted. */
  function RemoveDashes(t: string): (r: string)
    ensures '-' !in r
  {
    if t == [] then [] else (if t[0] == '-' then [] else [t[0]]) + RemoveDashes(t[1..])
  }

  /** The checksum followed by the payload, before base32. */
  function Checksummed(a: Account): seq<u8> {
    Be32(Crc32.Hash(Payload(a))) + Payload(a)
  }

  /** The ICRC-1 textual encoding of an account. */
  function Text(a: Account): string {
    Dashed(Base32.Encode(Checksummed(a)))
  }

  /** The textual form of a principal (`Principal::to_string`): the same
      checksum, base32 and dash layout over the principal's bytes alone. */
  function PrincipalText(p: Principal): string {
    Dashed(Base32.Encode(Be32(Crc32.Hash(p)) + p))
  }

  lemma {:induction false} LeadingZerosSnoc(s: seq<u8>, b: u8)
    ensures LeadingZeros(s + [b]) == if LeadingZeros(s) == |s| && b == 0 then |s| + 1 else LeadingZeros(s)
  {
    if s != [] {
      assert (s + [b])[1..] == s[1..] + [b];
      LeadingZerosSnoc(s[1..], b);
    }
  }

  /** How the significant bytes of a prefix grow by one byte: the step the
      encoder's loop over the subaccount takes. */
  lemma {:induction false} SignificantSnoc(s: seq<u8>, b: u8)
    ensures Significant(s + [b]) == if Significant(s) == [] && b == 0 then [] else Significant(s) + [b]
  {
    LeadingZerosSnoc(s, b);
  }

  lemma {:induction false} SignificantStep(s: seq<u8>, i: nat)
    requires i < |s|
    ensures Significant(s[..i + 1]) ==
      if Significant(s[..i]) == [] && s[i] == 0 then [] else Significant(s[..i]) + [s[i]]
  {
    assert s[..i + 1] == s[..i] + [s[i]];
    SignificantSnoc(s[..i], s[i]);
  }

  /** The loop of `Display for Account` over the subaccount bytes: it keeps
      every byte from the first non-zero one on, counting them. */
  method SignificantBytes(sub: Subaccount) returns (bytes: seq<u8>, count: u8)
    ensures bytes == Significant(sub) && count == |bytes|
  {
    bytes := [];
    count := 0;
    for i := 0 to 32
      invariant count == |Significant(sub[..i])| <= i
      invariant bytes == Significant(sub[..i])
    {
      SignificantStep(sub, i);
      if sub[i] != 0 || count > 0 {
        count := count + 1;
        bytes := bytes + [sub[i]];
      }
    }
    assert sub[..32] == sub;
  }

  /** What `Display for Account` writes for a subaccount before the checksum
      is taken: the significant bytes, then their count and 127 when there
      are any. */
  method SubaccountBytes(sub: Subaccount) returns (bytes: seq<u8>)
    ensures bytes == SubaccountSuffix(sub)
  {
    var count: u8;
    bytes, count := SignificantBytes(sub);
    if count > 0 {
      bytes := bytes + [count, 127];
    }
  }

  /** The closing loop of `Display for Account`: writes 5 characters and a
      dash while more than 5 characters are left, then the rest. */
  method WriteDashed(encoded: string) returns (text: string)
    ensures text == Dashed(encoded)
  {
    var s := encoded;
    text := "";
    while |s| > 5
      invariant text + Dashed(s) == Dashed(encoded)
      decreases |s|
    {
      text, s := text + s[..5] + "-", s[5..];
    }
    text := text + s;
  }

  /** `Display for Account`: the owner bytes and the subaccount bytes, the
      big-endian checksum spliced in front, base32, groups of 5. */
  method Display(a: Account) returns (text: string)
    ensures text == Text(a)
  {
    var bytes: seq<u8> := a.owner;
    match a.subaccount {
      case None =>
      case Some(sub) =>
        var suffix := SubaccountBytes(sub);
        bytes := bytes + suffix;
    }
    assert bytes == Payload(a);
    var checksum := Crc32.Hash(bytes);
    bytes := Be32(checksum) + bytes;
    var s := Base32.Encode(bytes);
    text := WriteDashed(s);
  }

  // Properties of the textual encoding

  /** The payload is the owner followed, for a non-default subaccount, by
      the subaccount from its first non-zero byte on, the number of those
      bytes (1 to 32) and 127. */
  lemma {:induction false} PayloadLayout(a: Account)
    ensures SubaccountOrDefault(a) == DEFAULT_SUBACCOUNT ==> Payload(a) == a.owner
    ensures SubaccountOrDefault(a) != DEFAULT_SUBACCOUNT ==>
      var s := SubaccountOrDefault(a);
      var z := LeadingZeros(s);
      && z < 32 && s[z] != 0
      && Payload(a) == a.owner + s[z..] + [32 - z, 127]
  {
    var s := SubaccountOrDefault(a);
    if s == DEFAULT_SUBACCOUNT {
      DefaultSuffix();
    } else {
      NonDefaultSuffix(s);
    }
  }

  /** The default subaccount adds nothing to the payload. */
  lemma {:induction false} DefaultSuffix()
    ensures SubaccountSuffix(DEFAULT_SUBACCOUNT) == []
  {
    LeadingZerosOfZeros(32);
  }

  /** Any other subaccount has a non-zero byte among its 32. */
  lemma {:induction false} NonDefaultSuffix(s: Subaccount)
    requires s != DEFAULT_SUBACCOUNT
    ensures var z := LeadingZeros(s);
      && z < 32 && s[z] != 0
      && SubaccountSuffix(s) == s[z..] + [32 - z, 127]
  {
    if LeadingZeros(s) == 32 {
      AllZeroIsDefault(s);
    }
  }

  /** A subaccount made of 32 leading zeros is the default one. */
  lemma {:induction false} AllZeroIsDefault(s: Subaccount)
    requires LeadingZeros(s) == 32
    ensures s == DEFAULT_SUBACCOUNT
  {
    assert forall i :: 0 <= i < 32 ==> s[i] == DEFAULT_SUBACCOUNT[i];
  }

  lemma {:induction false} RemoveDashesAppend(x: string, y: string)
    ensures RemoveDashes(x + y) == RemoveDashes(x) + RemoveDashes(y)
  {
    if x == [] {
      assert x + y == y;
    } else {
      var head := if x[0] == '-' then [] else [x[0]];
      assert (x + y)[0] == x[0];
      assert (x + y)[1..] == x[1..] + y;
      assert RemoveDashes(x + y) == head + RemoveDashes(x[1..] + y);
      RemoveDashesAppend(x[1..], y);
      assert RemoveDashes(x) == head + RemoveDashes(x[1..]);
    }
  }

  lemma {:induction false} RemoveDashesNone(s: string)
    requires '-' !in s
    ensures RemoveDashes(s) == s
  {
    if s != [] {
      RemoveDashesNone(s[1..]);
      assert s == [s[0]] + s[1..];
    }
  }

  /** Deleting the dashes gives back the dash-free text. */
  lemma {:induction false} RemoveDashesOfDashed(s: string)
    requires '-' !in s
    ensures RemoveDashes(Dashed(s)) == s
    decreases |s|
  {
    if |s| > 5 {
      RemoveDashesOfDashed(s[5..]);
      RemoveDashesAppend(s[..5] + "-", Dashed(s[5..]));
      RemoveDashesAppend(s[..5], "-");
      RemoveDashesNone(s[..5]);
      assert s == s[..5] + s[5..];
    } else {
      RemoveDashesNone(s);
    }
  }

  /** The dashes stand exactly at the positions 5, 11, 17, ...; every other
      character is the next character of s, and the dashes add one character
      per full group of 5 that is followed by more. */
  lemma {:induction false} DashedLayout(s: string)
    requires '-' !in s
    ensures |Dashed(s)| == if s == [] then 0 else |s| + (|s| - 1) / 5
    ensures forall i :: 0 <= i < |Dashed(s)| ==>
      (Dashed(s)[i] == '-' <==> i % 6 == 5) && (i % 6 != 5 ==> Dashed(s)[i] == s[i - i / 6])
    decreases |s|
  {
    if |s| > 5 {
      var rest := s[5..];
      DashedLayout(rest);
      var d := Dashed(s);
      assert d == s[..5] + "-" + Dashed(rest);
      forall i | 0 <= i < |d|
        ensures (d[i] == '-' <==> i % 6 == 5) && (i % 6 != 5 ==> d[i] == s[i - i / 6])
      {
        if i >= 6 {
          assert d[i] == Dashed(rest)[i - 6];
          assert (i - 6) % 6 == i % 6 && (i - 6) / 6 == i / 6 - 1;
        } else if i < 5 {
          assert d[i] == s[i];
        }
      }
    }
  }

  /** Every group of the text has 5 characters except the last, which has 1
      to 5; the text neither starts nor ends with a dash. */
  lemma {:induction false} DashedGroups(s: string)
    requires '-' !in s && s != []
    ensures Dashed(s)[0] != '-' && Dashed(s)[|Dashed(s)| - 1] != '-'
    ensures (|Dashed(s)| - 1) % 6 < 5
  {
    DashedLayout(s);
    var n := |s|;
    var q, r := (n - 1) / 5, (n - 1) % 5;
    assert n - 1 == 5 * q + r;
    var m := |Dashed(s)|;
    assert m == 6 * q + r + 1;
    assert (m - 1) % 6 == r;
  }

  lemma {:induction false} TextLayout(a: Account)
    ensures RemoveDashes(Text(a)) == Base32.Encode(Checksummed(a))
    ensures Text(a)[0] != '-' && Text(a)[|Text(a)| - 1] != '-'
    ensures forall i :: 0 <= i < |Text(a)| ==> (Text(a)[i] == '-' <==> i % 6 == 5)
  {
    var s := Base32.Encode(Checksummed(a));
    RemoveDashesOfDashed(s);
    DashedLayout(s);
    DashedGroups(s);
  }

  /** An account without a subaccount, or with the default one, is written
      exactly as its owner principal. */
  lemma {:induction false} DefaultAccountText(a: Account)
    requires SubaccountOrDefault(a) == DEFAULT_SUBACCOUNT
    ensures Text(a) == PrincipalText(a.owner)
  {
    if a.subaccount.Some? {
      assert LeadingZeros(DEFAULT_SUBACCOUNT) == 32 by {
        LeadingZerosOfZeros(32);
      }
      assert Significant(DEFAULT_SUBACCOUNT) == [];
    }
    assert Payload(a) == a.owner;
  }

  lemma {:induction false} LeadingZerosOfZeros(k: nat)
    ensures LeadingZeros(Zeros(k)) == k
  {
    if k > 0 {
      assert Zeros(k)[1..] == Zeros(k - 1);
      LeadingZerosOfZeros(k - 1);
    }
  }

  // Decoding the textual encoding

  /** ICRC-1 relies on a principal never ending in byte 127, so that a
      payload ending in 127 is known to carry a subaccount. */
  predicate Unmarked(owner: Principal) {
    owner == [] || owner[|owner| - 1] != 127
  }

  /** Splits the checksummed payload back into owner and subaccount. */
  function ParsePayload(p: seq<u8>): (r: Option<Account>)
  {
    if |p| >= 2 && p[|p| - 1] == 127 then
      var n := p[|p| - 2];
      if n < 1 || n > 32 || |p| < n + 2 || |p| - 2 - n > 29 then None
      else
        var sig := p[|p| - 2 - n..|p| - 2];
        if sig[0] == 0 then None
        else Some(Account(p[..|p| - 2 - n], Some(Zeros(32 - n) + sig)))
    else if |p| > 29 then None
    else Some(Account(p, None))
  }

  /** The inverse of `Text`: checks the dash layout, decodes base32,
      checks the checksum and splits the payload. */
  function ParseText(t: string): (r: Option<Account>)
  {
    var s := RemoveDashes(t);
    if Dashed(s) != t then None
    else match Base32.Decode(s)
      case None => None
      case Some(bytes) =>
        if |bytes| < 4 || FromBe(bytes[..4]) != Crc32.Hash(bytes[4..]) then None
        else ParsePayload(bytes[4..])
  }

  /** A payload ending in significant bytes, their count and 127 splits
      back into the owner and the zero-extended subaccount. */
  lemma {:induction false} ParsePayloadSuffix(owner: Principal, sig: seq<u8>)
    requires 1 <= |sig| <= 32 && sig[0] != 0
    ensures ParsePayload(owner + sig + [|sig| as u8, 127]) == Some(Account(owner, Some(Zeros(32 - |sig|) + sig)))
  {
    var n := |sig|;
    var p := owner + sig + [n as u8, 127];
    assert p[|p| - 1] == 127 && p[|p| - 2] == n as u8;
    assert p[|p| - 2 - n..|p| - 2] == sig by {
      assert p[..|p| - 2] == owner + sig;
    }
    assert p[..|p| - 2 - n] == owner by {
      assert p[..|p| - 2] == owner + sig;
    }
  }

  /** The payload of a non-default subaccount in the form
      `ParsePayloadSuffix` takes. */
  lemma {:induction false} SubaccountPayload(owner: Principal, s: Subaccount)
    requires s != DEFAULT_SUBACCOUNT
    ensures var sig := Significant(s);
      && 1 <= |sig| <= 32 && sig[0] != 0
      && Payload(Account(owner, Some(s))) == owner + sig + [|sig| as u8, 127]
  {
    PayloadLayout(Account(owner, Some(s)));
  }

  /** The leading zeros put back in front of the significant bytes give
      the subaccount. */
  lemma {:induction false} ZerosThenSignificant(s: Subaccount)
    ensures Zeros(32 - |Significant(s)|) + Significant(s) == s
  {
    var z := LeadingZeros(s);
    assert s[..z] == Zeros(z);
    assert s[..z] + s[z..] == s;
  }

  lemma {:induction false} PayloadRoundTripSubaccount(owner: Principal, s: Subaccount)
    requires s != DEFAULT_SUBACCOUNT
    ensures ParsePayload(Payload(Account(owner, Some(s)))) == Some(Account(owner, Some(s)))
  {
    SubaccountPayload(owner, s);
    ParsePayloadSuffix(owner, Significant(s));
    ZerosThenSignificant(s);
  }

  lemma {:induction false} PayloadRoundTrip(a: Account)
    requires Unmarked(a.owner)
    ensures ParsePayload(Payload(a)) == Some(NewAccount(a.owner, a.subaccount))
  {
    PayloadLayout(a);
    if SubaccountOrDefault(a) != DEFAULT_SUBACCOUNT {
      PayloadRoundTripSubaccount(a.owner, SubaccountOrDefault(a));
    }
  }

  /** Decoding the text of an account gives back that account in the
      normal form `Account::new` produces. */
  lemma {:induction false} TextRoundTrip(a: Account)
    requires Unmarked(a.owner)
    ensures ParseText(Text(a)) == Some(NewAccount(a.owner, a.subaccount))
  {
    var bytes := Checksummed(a);
    var s := Base32.Encode(bytes);
    RemoveDashesOfDashed(s);
    Base32.EncodeRoundTrip(bytes);
    assert bytes[..4] == Be32(Crc32.Hash(Payload(a)));
    assert bytes[4..] == Payload(a);
    PayloadRoundTrip(a);
  }

  /** Accounts with equal texts are the same account, so the text differs
      whenever owner or subaccount differ. */
  lemma {:induction false} TextInjective(a: Account, b: Account)
    requires Unmarked(a.owner) && Unmarked(b.owner)
    requires Text(a) == Text(b)
    ensures Same(a, b)
  {
    TextRoundTrip(a);
    TextRoundTrip(b);
    SameIffSameNormalForm(a, b);
  }

  // ---------------------------------------------------------------------
  // Mint index (`MintIndex for Principal`)

  /** "\x0Asld" */
  const SLD_TAG: seq<u8> := [0x0A, 0x73, 0x6C, 0x64]

  /** `from_mint_index`: the tag, the canister id, the big-endian index and
      the opaque marker 1. */
  function FromMintIndex(canister: Principal, mint: u32): (p: Principal)
    requires |canister| <= 20
    ensures |p| == |canister| + 9
  {
    SLD_TAG + canister + Be32(mint) + [1]
  }

  /** `to_mint_index`: the big-endian u32 just before the last byte. Slicing
      traps on fewer than 5 bytes. */
  function ToMintIndex(p: Principal): u32
    requires |p| >= 5
  {
    assert Pow256(4) == 0x1_0000_0000;
    FromBe(p[|p| - 5..|p| - 1])
  }

  lemma {:induction false} MintIndexLayout(canister: Principal, mint: u32)
    requires |canister| <= 20
    ensures var p := FromMintIndex(canister, mint);
      && p[..4] == SLD_TAG && p[4..4 + |canister|] == canister
      && p[|p| - 5..|p| - 1] == Be32(mint) && p[|p| - 1] == 1
  {
  }

  lemma {:induction false} MintIndexRoundTrip(canister: Principal, mint: u32)
    requires |canister| <= 20
    ensures ToMintIndex(FromMintIndex(canister, mint)) == mint
  {
    var p := FromMintIndex(canister, mint);
    assert p[|p| - 5..|p| - 1] == Be32(mint);
  }

  lemma {:induction false} FromMintIndexInjective(canister: Principal, m1: u32, m2: u32)
    requires |canister| <= 20
    requires FromMintIndex(canister, m1) == FromMintIndex(canister, m2)
    ensures m1 == m2
  {
    MintIndexRoundTrip(canister, m1);
    MintIndexRoundTrip(canister, m2);
  }

  // ---------------------------------------------------------------------
  // History entry (`StableBytes for HistoryEntry`)

  const HISTORY_ENTRY_BYTES: nat := 78

  datatype HistoryEntry = HistoryEntry(tokenId: nat, account: Account, time: u64, fromOffset: nat)

  /** `from_stable_bytes`: token id (LE u32) at 0..4, owner length at 4,
      owner at 5.., subaccount at 34..66 (all zero read as none), time (LE
      u64) at 66..74, previous offset (LE u32) at 74..78. An owner length
      above 29 traps in `Principal::from_slice`. */
  function FromStableBytes(b: seq<u8>): (e: HistoryEntry)
    requires |b| == HISTORY_ENTRY_BYTES && b[4] <= 29
    ensures e.tokenId < 0x1_0000_0000 && e.fromOffset < 0x1_0000_0000
    ensures |e.account.owner| == b[4] && e.account.subaccount != Some(DEFAULT_SUBACCOUNT)
  {
    assert Pow256(4) == 0x1_0000_0000;
    assert Pow256(8) == 0x1_0000_0000_0000_0000;
    var length := b[4];
    var sub: Subaccount := b[34..66];
    HistoryEntry(
      FromLe(b[0..4]),
      Account(b[5..5 + length], if sub == DEFAULT_SUBACCOUNT then None else Some(sub)),
      FromLe(b[66..74]),
      FromLe(b[74..78]))
  }

  /** The layout the decoder reads and the commented-out body of
      `to_stable_bytes` writes, with the unused owner slot zero-filled. */
  function EntryLayout(e: HistoryEntry): (b: seq<u8>)
    requires e.tokenId < 0x1_0000_0000 && e.fromOffset < 0x1_0000_0000
    ensures |b| == HISTORY_ENTRY_BYTES
  {
    assert Pow256(4) == 0x1_0000_0000;
    assert Pow256(8) == 0x1_0000_0000_0000_0000;
    var owner := e.account.owner;
    LeBytes(e.tokenId, 4) + [|owner|] + owner + Zeros(29 - |owner|)
      + SubaccountOrDefault(e.account) + LeBytes(e.time, 8) + LeBytes(e.fromOffset, 4)
  }

  /** Decoding the layout gives back the entry, its account normalised. */
  lemma {:induction false} EntryLayoutRoundTrip(e: HistoryEntry)
    requires e.tokenId < 0x1_0000_0000 && e.fromOffset < 0x1_0000_0000
    ensures FromStableBytes(EntryLayout(e)) ==
      e.(account := NewAccount(e.account.owner, e.account.subaccount))
  {
    assert Pow256(4) == 0x1_0000_0000;
    assert Pow256(8) == 0x1_0000_0000_0000_0000;
    var b := EntryLayout(e);
    var owner := e.account.owner;
    assert b[0..4] == LeBytes(e.tokenId, 4);
    assert b[4] == |owner|;
    assert b[5..5 + |owner|] == owner;
    assert b[34..66] == SubaccountOrDefault(e.account);
    assert b[66..74] == LeBytes(e.time, 8);
    assert b[74..78] == LeBytes(e.fromOffset, 4);
    FromLeBytes(e.tokenId, 4);
    FromLeBytes(e.time, 8);
    FromLeBytes(e.fromOffset, 4);
  }

  /** The bytes of the owner slot after the owner are never read. */
  lemma {:induction false} FromStableBytesIgnoresPadding(b: seq<u8>, c: seq<u8>)
    requires |b| == HISTORY_ENTRY_BYTES && |c| == HISTORY_ENTRY_BYTES && b[4] <= 29
    requires b[..5 + b[4]] == c[..5 + b[4]] && b[34..] == c[34..]
    ensures FromStableBytes(b) == FromStableBytes(c)
  {
    assert b[0..4] == c[0..4];
    assert b[5..5 + b[4]] == c[5..5 + b[4]];
    assert b[34..66] == c[34..66];
    assert b[66..74] == c[66..74];
    assert b[74..78] == c[74..78];
  }

  // ---------------------------------------------------------------------
  // Errors

  datatype TransferError =
    | NotFound
    | NotOwner
    | NotSelf
    | TemporarilyUnavailable
    | GenericError(errorCode: nat, message: string)

  datatype ApproveError =
    | NotFound
    | NotOwner
    | NotSelf
    | MaxApprovals(limit: nat)
    | TemporarilyUnavailable
    | GenericError(errorCode: nat, message: string)

  datatype TransferFromError =
    | NotFound
    | NotOwner
    | NotSelf
    | NotApproved
    | TemporarilyUnavailable
    | GenericError(errorCode: nat, message: string)

  datatype SetCustodiansError =
    | NotAllowed
    | MaxCustodians(limit: nat)
    | TemporarilyUnavailable
    | GenericError(errorCode: nat, message: string)

  /** A transfer error read as the transfer-from error of the same name. */
  function AsTransferFromError(e: TransferError): TransferFromError {
    match e
    case NotFound => TransferFromError.NotFound
    case NotOwner => TransferFromError.NotOwner
    case NotSelf => TransferFromError.NotSelf
    case TemporarilyUnavailable => TransferFromError.TemporarilyUnavailable
    case GenericError(code, msg) => TransferFromError.GenericError(code, msg)
  }

  /** `to_transfer_error`: every variant maps to the one of the same name,
      except NotApproved, which becomes a 403 generic error. */
  function ToTransferError(e: TransferFromError): (r: TransferError)
    ensures !e.NotApproved? ==> AsTransferFromError(r) == e
    ensures e.NotApproved? ==> r == TransferError.GenericError(403, "Caller is not approved")
  {
    match e
    case NotFound => TransferError.NotFound
    case NotOwner => TransferError.NotOwner
    case NotSelf => TransferError.NotSelf
    case NotApproved => TransferError.GenericError(403, "Caller is not approved")
    case TemporarilyUnavailable => TransferError.TemporarilyUnavailable
    case GenericError(code, msg) => TransferError.GenericError(code, msg)
  }

  lemma {:induction false} ToTransferErrorInverts(t: TransferError)
    ensures ToTransferError(AsTransferFromError(t)) == t
  {
  }

  // ---------------------------------------------------------------------
  // Records

  datatype Event = Event(caller: Principal, operation: string, time: u64, details: map<string, Value>)

  datatype EventOrBucket = EventEntry(event: Event) | EventBucket(bucket: Principal)

  datatype BlockOrBucket = Block(events: seq<Event>) | BlockBucket(bucket: Principal)

  datatype SupportedStandard = SupportedStandard(name: string, url: string)

  /** Internal token state; `approved` holds at most 256 principals. */
  datatype Token = Token(account: Account, txId: nat, approved: set<Principal>)

  datatype TransferArgs = TransferArgs(
    fromSubaccount: Option<Subaccount>, to: Account, tokenId: nat,
    memo: Option<Memo>, createdAtTime: Option<u64>)

  datatype ApproveArgs = ApproveArgs(
    fromSubaccount: Option<Subaccount>, spender: Principal, tokenId: nat,
    approved: bool, memo: Option<Memo>, createdAtTime: Option<u64>)

  datatype TransferFromArgs = TransferFromArgs(
    from: Account, to: Account, tokenId: nat,
    memo: Option<Memo>, createdAtTime: Option<u64>)

  datatype SetCustodianArgs = SetCustodianArgs(custodian: Principal, approved: bool)
}
