/** hnsNameHash itself: one padded rate block, the permutation, and the hexadecimal digest, proved to
    be SHA3-256 as module Fips202 states it. */
module HnsNameHash {
  import opened Fips202
  import opened Keccak
  import opened KeccakRefinement
  import opened LaneBits

  const MAX_NAME_BYTES := 63

  datatype Digest = Rejected | Hex(text: string)

  // ---- what the code computes ----

  predicate Canonical(input: seq<bv8>) {
    |input| <= MAX_NAME_BYTES && forall i :: 0 <= i < |input| ==> input[i] <= 0x7f
  }

  function Block(input: seq<bv8>): (block: seq<bv8>)
    requires |input| <= MAX_NAME_BYTES
    ensures |block| == RATE_BYTES
  {
    input + [0x06] + seq(RATE_BYTES - |input| - 2, _ => 0) + [0x80]
  }

  /** The first n bytes of a lane, least significant first. */
  function LaneTo(block: seq<bv8>, lane: nat, n: nat): bv64
    requires |block| == RATE_BYTES && lane < 17 && n <= 8
  {
    if n == 0 then 0
    else Or(LaneTo(block, lane, n - 1), ShiftLeft(block[lane * 8 + n - 1] as bv64, Amount(8 * (n - 1))))
  }

  function InputLanes(block: seq<bv8>): (s: seq<bv64>)
    requires |block| == RATE_BYTES
    ensures |s| == 25
  {
    seq(25, i requires 0 <= i < 25 => if i < 17 then LaneTo(block, i, 8) else 0)
  }

  function ByteAt(lane: bv64, s: bv6): bv8 {
    ((lane >> s) & 0xff) as bv8
  }

  function LaneByte(lane: bv64, k: nat): bv8
    requires k < 8
  {
    ByteAt(lane, Amount(8 * k))
  }

  function HexDigit(nibble: bv8): char {
    if nibble < 16 then "0123456789abcdef"[nibble as int] else '?'
  }

  function HexByte(b: bv8): string {
    [HexDigit(b >> 4), HexDigit(b & 0xf)]
  }

  function HexText(bytes: seq<bv8>): string {
    if bytes == [] then "" else HexText(bytes[..|bytes| - 1]) + HexByte(bytes[|bytes| - 1])
  }

  /** The first four lanes, byte by byte. */
  function DigestOf(final: seq<bv64>): (bytes: seq<bv8>)
    requires |final| == 25
    ensures |bytes| == 32
  {
    seq(32, i requires 0 <= i < 32 => LaneByte(final[i / 8], i % 8))
  }

  function DigestBytes(input: seq<bv8>): (bytes: seq<bv8>)
    requires |input| <= MAX_NAME_BYTES
    ensures |bytes| == 32
  {
    DigestOf(LaneRounds(InputLanes(Block(input)), 24))
  }

  // ---- the bits of the block are the padded message ----

  lemma PaddedMessage(input: seq<bv8>)
    requires |input| <= MAX_NAME_BYTES
    ensures var n := BitsOfBytes(input) + [false, true];
            BitsOfBytes(Block(input)) == n + Pad101(RATE, |n|)
  {
    var n := BitsOfBytes(input) + [false, true];
    var padded := n + Pad101(RATE, |n|);
    var length := |input|;
    assert |n| == 8 * length + 2;
    assert (-2 - |n|) % RATE == 1084 - 8 * length;
    assert |padded| == RATE;
    var bits := BitsOfBytes(Block(input));
    forall i | 0 <= i < RATE ensures bits[i] == padded[i] {
      if i < 8 * length {
        assert Block(input)[i / 8] == input[i / 8];
      } else if i < 8 * length + 8 {
        assert i / 8 == length && Block(input)[i / 8] == 0x06;
        SuffixByte(i % 8);
      } else if i < RATE - 8 {
        assert Block(input)[i / 8] == 0;
        ZeroByte(i % 8);
      } else {
        assert i / 8 == RATE_BYTES - 1 && Block(input)[i / 8] == 0x80;
        LastByte(i % 8);
      }
    }
  }

  /** 0x06 holds the suffix 01, the first 1 of the padding, and zeros. */
  lemma SuffixByte(k: nat)
    requires k < 8
    ensures ByteBit(0x06, k) == (k == 1 || k == 2)
  {
  }

  lemma ZeroByte(k: nat)
    requires k < 8
    ensures !ByteBit(0, k)
  {
  }

  lemma LastByte(k: nat)
    requires k < 8
    ensures ByteBit(0x80, k) == (k == 7)
  {
  }

  // ---- bytes and lanes ----

  lemma BitOfByteInLane(b: bv8, z: bv6)
    ensures Bit(b as bv64, z) == ((z as int) < 8 && ByteBit(b, z as int))
  {
    if z < 8 {
      assert Bit(b as bv64, z) == ((b >> (z as int)) & 1 == 1);
    } else {
      assert !Bit(b as bv64, z);
    }
  }

  lemma ByteOffset(n: nat, z: bv6)
    requires n < 8
    ensures (z >= Amount(8 * n)) == ((z as int) >= 8 * n)
    ensures z >= Amount(8 * n) ==> (z - Amount(8 * n)) as int == (z as int) - 8 * n
  {
    hide Amount;
    AmountIs(8 * n);
    IndexOrder(Amount(8 * n), z);
  }

  lemma IndexOrder(s: bv6, z: bv6)
    ensures (z >= s) == ((z as int) >= (s as int))
    ensures z >= s ==> (z - s) as int == (z as int) - (s as int)
  {
  }

  lemma AmountIs(n: nat)
    requires n < 64
    ensures (Amount(n) as int) == n
  {
  }

  lemma BitOfShiftedByte(b: bv8, n: nat, z: bv6)
    requires n < 8
    ensures Bit(ShiftLeft(b as bv64, Amount(8 * n)), z) ==
      ((z as int) / 8 == n && ByteBit(b, (z as int) % 8))
  {
    hide Bit, ShiftLeft, ByteBit, Amount;
    var s := Amount(8 * n);
    BitOfShiftLeft(b as bv64, s, z);
    ByteOffset(n, z);
    ByteOfIndex(z as int, n);
    if z >= s {
      BitOfByteInLane(b, z - s);
    }
  }

  lemma ByteOfIndex(i: nat, n: nat)
    ensures i / 8 == n <==> 8 * n <= i < 8 * n + 8
    ensures i / 8 == n ==> i % 8 == i - 8 * n
  {
  }

  lemma {:induction false} BitOfLane(block: seq<bv8>, lane: nat, n: nat, z: bv6)
    requires |block| == RATE_BYTES && lane < 17 && n <= 8
    ensures Bit(LaneTo(block, lane, n), z) ==
      ((z as int) / 8 < n && ByteBit(block[lane * 8 + (z as int) / 8], (z as int) % 8))
  {
    hide Bit, Or, ShiftLeft, ByteBit, Amount;
    if n == 0 {
      ZeroBit(z);
    } else {
      BitOfLane(block, lane, n - 1, z);
      var b := block[lane * 8 + n - 1];
      BitOfOr(LaneTo(block, lane, n - 1), ShiftLeft(b as bv64, Amount(8 * (n - 1))), z);
      BitOfShiftedByte(b, n - 1, z);
    }
  }

  lemma RawByte(lane: bv64, s: bv6, j: bv6)
    requires j < 8 && s <= 56
    ensures ((((lane >> s) & 0xff) as bv8) >> j) & 1 == 1 <==> Bit(lane, s + j)
  {
  }

  lemma BitOfByteAt(lane: bv64, s: bv6, j: nat)
    requires j < 8 && s <= 56
    ensures ByteBit(ByteAt(lane, s), j) == Bit(lane, s + Amount(j))
  {
    RawByte(lane, s, Amount(j));
  }

  lemma AmountAdds(k: nat, j: nat)
    requires k < 8 && j < 8
    ensures Amount(8 * k) <= 56 && Amount(8 * k + j) == Amount(8 * k) + Amount(j)
  {
    hide Amount;
    AmountIs(8 * k);
    AmountIs(j);
    AmountIs(8 * k + j);
  }

  lemma BitOfLaneByte(lane: bv64, k: nat, j: nat)
    requires k < 8 && j < 8
    ensures ByteBit(LaneByte(lane, k), j) == Bit(lane, Amount(8 * k + j))
  {
    hide ByteBit, ByteAt, Bit, Amount;
    AmountAdds(k, j);
    BitOfByteAt(lane, Amount(8 * k), j);
  }

  // ---- the sponge ----

  lemma AbsorbedBlock(input: seq<bv8>, padded: seq<bool>)
    requires |input| <= MAX_NAME_BYTES && padded == BitsOfBytes(Block(input))
    ensures Represents(InputLanes(Block(input)), XorBlock((x, y, z) => false, padded))
  {
    hide Bit, At, ByteBit, LaneTo, Block;
    var block := Block(input);
    var s := InputLanes(block);
    var a := XorBlock((x, y, z) => false, padded);
    forall x: nat, y: nat, z: bv6 | x < 5 && y < 5 ensures Bit(s[At(x, y)], z) == a(x, y, z) {
      var lane := At(x, y);
      AtIs(x, y);
      if lane < 17 {
        BitOfLane(block, lane, 8, z);
        var i := 64 * lane + (z as int);
        assert i / 8 == lane * 8 + (z as int) / 8 && i % 8 == (z as int) % 8;
        assert |padded| == RATE && i < RATE;
        assert i == 64 * (5 * (y as int) + (x as int)) + (z as int);
        assert ToArray(padded)(x, y, z) == padded[i];
        assert a(x, y, z) == padded[i];
      } else {
        ZeroBit(z);
        assert 64 * (5 * (y as int) + (x as int)) + (z as int) >= RATE;
        assert !ToArray(padded)(x, y, z);
      }
    }
  }

  lemma AtIs(x: nat, y: nat)
    requires x < 5 && y < 5
    ensures At(x, y) == 5 * y + x
  {
  }

  lemma OneBlockAbsorbed(a: StateArray, padded: seq<bool>)
    requires |padded| == RATE
    ensures Absorb(a, padded) == KeccakF(XorBlock(a, padded))
  {
    hide KeccakF;
    assert padded[..RATE] == padded && |padded[RATE..]| == 0;
  }

  lemma DigestBit(final: seq<bv64>, a: StateArray, i: nat)
    requires |final| == 25 && Represents(final, a) && i < 256
    ensures ByteBit(DigestOf(final)[i / 8], i % 8) == a(i / 64 % 5, i / 64 / 5, Amount(i % 64))
  {
    hide Bit, ByteBit, LaneByte, Represents;
    var lane := i / 64;
    AtIs(lane, 0);
    BitAt(final, a, lane, 0, Amount(i % 64));
    BitOfLaneByte(final[lane], i / 8 % 8, i % 8);
    assert i / 8 / 8 == lane && 8 * (i / 8 % 8) + i % 8 == i % 64;
  }

  /** For every canonical name, bit i of the digest that hnsNameHash writes is bit i of SHA3-256 of
      the name's bytes. */
  lemma DigestIsSha3(input: seq<bv8>, i: nat)
    requires |input| <= MAX_NAME_BYTES && i < 256
    ensures ByteBit(DigestBytes(input)[i / 8], i % 8) == Sha3_256(BitsOfBytes(input))(i)
  {
    hide Represents, ByteBit, Block, KeccakF, XorBlock, DigestOf, InputLanes, LaneRounds, Absorb;
    var zero: StateArray := (x, y, z) => false;
    var padded := BitsOfBytes(Block(input));
    PaddedMessage(input);
    AbsorbedBlock(input, padded);
    KeccakRefines(InputLanes(Block(input)), XorBlock(zero, padded));
    OneBlockAbsorbed(zero, padded);
    DigestBit(LaneRounds(InputLanes(Block(input)), 24), KeccakF(XorBlock(zero, padded)), i);
  }

  // ---- the bits of the text ----

  /** The value of a hexadecimal digit; -1 for any other character. */
  function DigitValue(c: char): int {
    if '0' <= c <= '9' then c as int - '0' as int
    else if 'a' <= c <= 'f' then c as int - 'a' as int + 10
    else -1
  }

  /** Bit k of a number below 16. */
  function DigitBit(value: int, k: nat): bool
    requires k < 4
  {
    (match k case 0 => value case 1 => value / 2 case 2 => value / 4 case _ => value / 8) % 2 == 1
  }

  /** The character that holds bit i of the digest: of each byte the low digit is the second. */
  function DigitIndex(i: nat): nat {
    2 * (i / 8) + if i % 8 < 4 then 1 else 0
  }

  lemma DigitHasValue(nibble: bv8)
    requires nibble < 16
    ensures DigitValue(HexDigit(nibble)) == nibble as int
  {
    var digits := "0123456789abcdef";
    assert forall i :: 0 <= i < 16 ==> DigitValue(digits[i]) == i;
  }

  lemma NibbleBit(nibble: bv8, k: nat)
    requires nibble < 16 && k < 4
    ensures DigitBit(nibble as int, k) == ((nibble >> k) & 1 == 1)
  {
    var n := nibble as int;
    assert n == 0 || n == 1 || n == 2 || n == 3 || n == 4 || n == 5 || n == 6 || n == 7 || n == 8 || n == 9 ||
    n == 10 ||
           n == 11 || n == 12 || n == 13 || n == 14 || n == 15;
  }

  lemma LowNibble(b: bv8, k: nat)
    requires k < 4
    ensures b & 0xf < 16 && (((b & 0xf) >> k) & 1 == 1) == ByteBit(b, k)
  {
  }

  lemma HighNibble(b: bv8, k: nat)
    requires k < 4
    ensures b >> 4 < 16 && (((b >> 4) >> k) & 1 == 1) == ByteBit(b, k + 4)
  {
  }

  lemma {:induction false} TextDigits(bytes: seq<bv8>, k: nat)
    requires k < |bytes|
    ensures |HexText(bytes)| == 2 * |bytes|
    ensures HexText(bytes)[2 * k] == HexDigit(bytes[k] >> 4) && HexText(bytes)[2 * k + 1] == HexDigit(bytes[k] & 0xf)
  {
    var n := |bytes| - 1;
    HexTextLength(bytes[..n]);
    if k < n {
      TextDigits(bytes[..n], k);
    }
  }

  lemma LowDigit(b: bv8, k: nat)
    requires k < 4
    ensures var v := DigitValue(HexDigit(b & 0xf)); 0 <= v < 16 && DigitBit(v, k) == ByteBit(b, k)
  {
    hide HexDigit, DigitValue, DigitBit, ByteBit;
    LowNibble(b, k);
    DigitHasValue(b & 0xf);
    NibbleBit(b & 0xf, k);
  }

  lemma HighDigit(b: bv8, k: nat)
    requires k < 4
    ensures var v := DigitValue(HexDigit(b >> 4)); 0 <= v < 16 && DigitBit(v, k) == ByteBit(b, k + 4)
  {
    hide HexDigit, DigitValue, DigitBit, ByteBit;
    HighNibble(b, k);
    DigitHasValue(b >> 4);
    NibbleBit(b >> 4, k);
  }

  lemma TextBit(bytes: seq<bv8>, i: nat)
    requires i < 8 * |bytes|
    ensures |HexText(bytes)| == 2 * |bytes| && DigitIndex(i) < 2 * |bytes|
    ensures var v := DigitValue(HexText(bytes)[DigitIndex(i)]);
            0 <= v < 16 && DigitBit(v, i % 4) == ByteBit(bytes[i / 8], i % 8)
  {
    hide HexText, HexDigit, DigitValue, DigitBit, ByteBit;
    TextDigits(bytes, i / 8);
    if i % 8 < 4 {
      LowDigit(bytes[i / 8], i % 4);
    } else {
      HighDigit(bytes[i / 8], i % 4);
    }
  }

  // ---- the code ----

  method LoadBlock(block: array<bv8>, state: array<bv64>)
    requires block.Length == RATE_BYTES && state.Length == 25
    requires forall i :: 0 <= i < 25 ==> state[i] == 0
    modifies state
    ensures state[..] == InputLanes(block[..])
  {
    hide Or, ShiftLeft;
    for lane := 0 to RATE_BYTES / 8
      invariant forall i :: 0 <= i < 25 ==> state[i] == if i < lane then LaneTo(block[..], i, 8) else 0
    {
      var value: bv64 := 0;
      for byte := 0 to 8
        invariant value == LaneTo(block[..], lane, byte)
      {
        value := Or(value, ShiftLeft(block[lane * 8 + byte] as bv64, Amount(byte * 8)));
      }
      XorZero(value);
      state[lane] := Xor(state[lane], value);
    }
  }

  lemma XorZero(value: bv64)
    ensures Xor(0, value) == value
  {
  }

  method HnsNameHash(input: seq<bv8>) returns (digest: Digest)
    ensures digest.Hex? <==> |input| <= 63 && forall i :: 0 <= i < |input| ==> input[i] < 128
    ensures digest.Hex? ==>
              |digest.text| == 64 &&
              forall i :: 0 <= i < 256 ==>
                var value := DigitValue(digest.text[DigitIndex(i)]);
                0 <= value < 16 && DigitBit(value, i % 4) == Sha3_256(BitsOfBytes(input))(i)
  {
    hide LaneRounds, LaneTo, LaneByte, HexByte, DigitValue, DigitBit;
    if !Canonical(input) {
      return Rejected;
    }
    var block := new bv8[RATE_BYTES](_ => 0);
    for i := 0 to |input|
      invariant forall k :: 0 <= k < RATE_BYTES ==> block[k] == if k < i then input[k] else 0
    {
      block[i] := input[i];
    }
    block[|input|] := 0x06;
    block[RATE_BYTES - 1] := block[RATE_BYTES - 1] | 0x80;
    assert block[..] == Block(input);
    var state := new bv64[25](_ => 0);
    LoadBlock(block, state);
    KeccakF1600(state);
    var encoded := "";
    ghost var bytes := DigestBytes(input);
    for index := 0 to 32
      invariant state[..] == LaneRounds(InputLanes(Block(input)), 24)
      invariant encoded == HexText(bytes[..index])
    {
      var byte := LaneByte(state[index / 8], index % 8);
      assert bytes[..index + 1][..index] == bytes[..index] && byte == bytes[index];
      encoded := encoded + HexByte(byte);
    }
    assert bytes[..32] == bytes;
    HexTextLength(bytes);
    hide HexText;
    forall i | 0 <= i < 256
      ensures var value := DigitValue(encoded[DigitIndex(i)]);
              0 <= value < 16 && DigitBit(value, i % 4) == Sha3_256(BitsOfBytes(input))(i)
    {
      DigestIsSha3(input, i);
      TextBit(bytes, i);
    }
    digest := Hex(encoded);
  }

  // ---- the text determines the bytes ----

  lemma HexDigitInjective(a: bv8, b: bv8)
    requires a < 16 && b < 16 && HexDigit(a) == HexDigit(b)
    ensures a == b
  {
    var digits := "0123456789abcdef";
    assert forall i, j :: 0 <= i < j < 16 ==> digits[i] != digits[j];
  }

  lemma NibblesDetermine(a: bv8, b: bv8)
    requires a >> 4 == b >> 4 && a & 0xf == b & 0xf
    ensures a == b
  {
  }

  /** Two names with the same digest text have the same SHA3-256 value: the encoding loses nothing. */
  lemma {:induction false} HexTextInjective(a: seq<bv8>, b: seq<bv8>)
    requires |a| == |b| && HexText(a) == HexText(b)
    ensures a == b
  {
    if a != [] {
      var n := |a| - 1;
      var x, y := HexText(a), HexText(b);
      HexTextLength(a[..n]);
      HexTextLength(b[..n]);
      assert x[..2 * n] == HexText(a[..n]) && y[..2 * n] == HexText(b[..n]);
      HexTextInjective(a[..n], b[..n]);
      assert x[2 * n] == HexDigit(a[n] >> 4) && x[2 * n + 1] == HexDigit(a[n] & 0xf);
      assert y[2 * n] == HexDigit(b[n] >> 4) && y[2 * n + 1] == HexDigit(b[n] & 0xf);
      HexDigitInjective(a[n] >> 4, b[n] >> 4);
      HexDigitInjective(a[n] & 0xf, b[n] & 0xf);
      NibblesDetermine(a[n], b[n]);
      assert a == a[..n] + [a[n]] && b == b[..n] + [b[n]];
    }
  }

  lemma {:induction false} HexTextLength(a: seq<bv8>)
    ensures |HexText(a)| == 2 * |a|
  {
    if a != [] {
      HexTextLength(a[..|a| - 1]);
    }
  }
}
