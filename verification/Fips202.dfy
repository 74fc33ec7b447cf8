/** KECCAK-p[1600, 24] and SHA3-256 at bit level, as FIPS 202 states them: the step mappings of
    section 3.2, the permutation of section 3.3, the sponge of section 4, the padding of section 5.1
    and the hash function of section 6.1.  A state array A[x, y, z] is a function; the z coordinate is
    a six-bit vector, so that its arithmetic is the standard's arithmetic modulo w = 64. */
module Fips202 {
  type StateArray = (int, int, bv6) -> bool

  // ---- section 3.2.1: theta ----

  function ColumnParity(a: StateArray, x: int, z: bv6): bool {
    a(x, 0, z) != (a(x, 1, z) != (a(x, 2, z) != (a(x, 3, z) != a(x, 4, z))))
  }

  function Theta(a: StateArray): StateArray {
    (x, y, z) => a(x, y, z) != (ColumnParity(a, (x - 1) % 5, z) != ColumnParity(a, (x + 1) % 5, z - 1))
  }

  // ---- section 3.2.2: rho ----

  /** The lane (x, y) that iteration t of rho treats. */
  function Walk(t: nat): (int, int) {
    if t == 0 then (1, 0) else var p := Walk(t - 1); (p.1, (2 * p.0 + 3 * p.1) % 5)
  }

  /** The shift of iteration t, modulo w = 64. */
  function Offset(t: nat): (r: nat)
    ensures r < 64
  {
    (t + 1) * (t + 2) / 2 % 64
  }

  /** (z - n) mod w. */
  function Back(z: bv6, n: nat): bv6
    requires n < 64
  {
    z - (n as bv6)
  }

  /** A bit index below w = 64, as a z coordinate. */
  function Amount(n: nat): bv6
    requires n < 64
  {
    n as bv6
  }

  /** The array A' after t iterations of step 3 of rho. */
  function RhoSteps(a: StateArray, t: nat): StateArray {
    if t == 0 then
      a
    else
      var before := RhoSteps(a, t - 1);
      var lane := Walk(t - 1);
      var shift := Offset(t - 1);
      (x, y, z) => if (x, y) == lane then a(x, y, Back(z, shift)) else before(x, y, z)
  }

  function Rho(a: StateArray): StateArray {
    RhoSteps(a, 24)
  }

  // ---- sections 3.2.3, 3.2.4 and 3.2.5: pi, chi and iota ----

  function Pi(a: StateArray): StateArray {
    (x, y, z) => a((x + 3 * y) % 5, x, z)
  }

  function Chi(a: StateArray): StateArray {
    (x, y, z) => a(x, y, z) != (!a((x + 1) % 5, y, z) && a((x + 2) % 5, y, z))
  }

  /** One step of the shift register behind rc; bit i of the vector is the standard's R[i]. */
  function RegisterStep(r: bv8): bv8 {
    var wide: bv9 := (r as bv9) << 1;
    var top: bv9 := (wide >> 8) & 1;
    ((wide ^ top ^ (top << 4) ^ (top << 5) ^ (top << 6)) & 0xff) as bv8
  }

  function Register(steps: nat): bv8 {
    if steps == 0 then 1 else RegisterStep(Register(steps - 1))
  }

  function Rc(t: nat): bool {
    Register(t % 255) & 1 == 1
  }

  function RoundConstantBit(round: nat, z: bv6): bool {
    if z == 0 then Rc(7 * round)
    else if z == 1 then Rc(1 + 7 * round)
    else if z == 3 then Rc(2 + 7 * round)
    else if z == 7 then Rc(3 + 7 * round)
    else if z == 15 then Rc(4 + 7 * round)
    else if z == 31 then Rc(5 + 7 * round)
    else if z == 63 then Rc(6 + 7 * round)
    else false
  }

  function Iota(a: StateArray, round: nat): StateArray {
    (x, y, z) => if (x, y) == (0, 0) then a(x, y, z) != RoundConstantBit(round, z) else a(x, y, z)
  }

  // ---- section 3.3: the permutation ----

  function Round(a: StateArray, round: nat): StateArray {
    Iota(Chi(Pi(Rho(Theta(a)))), round)
  }

  function Rounds(a: StateArray, n: nat): StateArray {
    if n == 0 then a else Round(Rounds(a, n - 1), n - 1)
  }

  function KeccakF(a: StateArray): StateArray {
    Rounds(a, 24)
  }

  // ---- sections 4, 5.1 and 6.1: the sponge, the padding and SHA3-256 ----

  const RATE := 1088

  function Zeros(n: nat): (s: seq<bool>)
    ensures |s| == n
  {
    seq(n, _ => false)
  }

  /** pad10*1(x, m). */
  function Pad101(x: nat, m: nat): seq<bool>
    requires x > 0
  {
    var j := (-2 - m) % x;
    [true] + Zeros(j) + [true]
  }

  /** The string to state array conversion of section 3.1.2, over a string given by its bits. */
  function ToArray(s: seq<bool>): StateArray {
    (x, y, z) =>
      var i := 64 * (5 * y + x) + (z as int);
      if 0 <= i < |s| then s[i] else false
  }

  /** XOR of a block, padded with the capacity's zeros, into the state. */
  function XorBlock(a: StateArray, block: seq<bool>): StateArray {
    (x, y, z) => a(x, y, z) != ToArray(block)(x, y, z)
  }

  function Absorb(a: StateArray, padded: seq<bool>): StateArray
  {
    if |padded| < RATE then a else Absorb(KeccakF(XorBlock(a, padded[..RATE])), padded[RATE..])
  }

  /** SHA3-256(M) = KECCAK[512](M || 01, 256), as the function from bit positions below 256; one
      squeeze is enough because 256 is below the rate. */
  function Sha3_256(message: seq<bool>): int -> bool {
    var n := message + [false, true];
    var padded := n + Pad101(RATE, |n|);
    var final := Absorb((x, y, z) => false, padded);
    i => final(i / 64 % 5, i / 64 / 5, Amount(i % 64))
  }

  /** Bit k of a byte, the least significant one first. */
  function ByteBit(b: bv8, k: nat): bool
    requires k < 8
  {
    (b >> k) & 1 == 1
  }

  /** The bits of a byte string in the order of section B.1. */
  function BitsOfBytes(bytes: seq<bv8>): (bits: seq<bool>)
    ensures |bits| == 8 * |bytes|
    ensures forall i :: 0 <= i < |bits| ==> bits[i] == ByteBit(bytes[i / 8], i % 8)
  {
    seq(8 * |bytes|, i requires 0 <= i < 8 * |bytes| => ByteBit(bytes[i / 8], i % 8))
  }
}
