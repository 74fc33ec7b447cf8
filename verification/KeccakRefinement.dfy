/** The bits of a 64-bit lane, and what the word operations do to them. */
module LaneBits {
  function BitValue(lane: bv64, z: bv6): bv64 {
    (lane >> z) & 1
  }

  function Bit(lane: bv64, z: bv6): bool {
    BitValue(lane, z) == 1
  }

  lemma RawXor(a: bv64, b: bv64, z: bv6)
    ensures Bit(a ^ b, z) == (Bit(a, z) != Bit(b, z))
  {
  }

  lemma RawAndNot(a: bv64, b: bv64, z: bv6)
    ensures Bit(!a & b, z) == (!Bit(a, z) && Bit(b, z))
  {
  }

  lemma RawOr(a: bv64, b: bv64, z: bv6)
    ensures Bit(a | b, z) == (Bit(a, z) || Bit(b, z))
  {
  }

  lemma RawShiftLeft(v: bv64, s: bv6, z: bv6)
    ensures ((v << s) >> z) & 1 == if z >= s then (v >> (z - s)) & 1 else 0
  {
  }

  lemma ValueOfShiftLeft(v: bv64, s: bv6, z: bv6)
    ensures BitValue(v << s, z) == if z >= s then BitValue(v, z - s) else 0
  {
    RawShiftLeft(v, s, z);
  }

  lemma RawShiftRight(v: bv64, s: bv6, z: bv6)
    ensures ((v >> (64 - (s as bv7))) >> z) & 1 == if z < s then (v >> (z - s)) & 1 else 0
  {
  }

  lemma ValueOfShiftRight(v: bv64, s: bv6, z: bv6)
    ensures BitValue(v >> (64 - (s as bv7)), z) == if z < s then BitValue(v, z - s) else 0
  {
    RawShiftRight(v, s, z);
  }
}

/** The lane code of module Keccak computes the bit-level KECCAK-f[1600] of module Fips202. */
module KeccakRefinement {
  import opened Fips202
  import opened Keccak
  import opened LaneBits

  /** Lane (x, y) of s holds the bits A[x, y, 0..63], least significant first. */
  ghost predicate Represents(s: seq<bv64>, a: StateArray) {
    |s| == 25 && forall x: nat, y: nat, z: bv6 :: x < 5 && y < 5 ==> Bit(s[At(x, y)], z) == a(x, y, z)
  }

  // ---- the word operations bit by bit ----

  lemma BitOfXor(a: bv64, b: bv64, z: bv6)
    ensures Bit(Xor(a, b), z) == (Bit(a, z) != Bit(b, z))
  {
    hide Bit;
    RawXor(a, b, z);
  }

  lemma BitOfAndNot(a: bv64, b: bv64, z: bv6)
    ensures Bit(AndNot(a, b), z) == (!Bit(a, z) && Bit(b, z))
  {
    hide Bit;
    RawAndNot(a, b, z);
  }

  lemma BitOfOr(a: bv64, b: bv64, z: bv6)
    ensures Bit(Or(a, b), z) == (Bit(a, z) || Bit(b, z))
  {
    hide Bit;
    RawOr(a, b, z);
  }

  lemma BitOfShiftLeft(v: bv64, s: bv6, z: bv6)
    ensures Bit(ShiftLeft(v, s), z) == (z >= s && Bit(v, z - s))
  {
    hide BitValue;
    if z >= s {
      ValueOfShiftLeft(v, s, z);
    } else {
      ValueOfShiftLeft(v, s, z);
    }
  }

  lemma BitOfShiftRight(v: bv64, s: bv6, z: bv6)
    ensures Bit(ShiftRightBySixtyFourMinus(v, s), z) == (z < s && Bit(v, z - s))
  {
    hide BitValue;
    ValueOfShiftRight(v, s, z);
  }

  lemma BitOfRotation(v: bv64, n: nat, z: bv6)
    requires n < 64
    ensures Bit(RotateLeft(v, n), z) == Bit(v, Back(z, n))
  {
    hide Bit, Or, ShiftLeft, ShiftRightBySixtyFourMinus;
    var s := Amount(n);
    BitOfOr(ShiftLeft(v, s), ShiftRightBySixtyFourMinus(v, s), z);
    BitOfShiftLeft(v, s, z);
    BitOfShiftRight(v, s, z);
  }

  // ---- theta ----

  lemma BitOfColumn(s: seq<bv64>, a: StateArray, x: nat, z: bv6)
    requires Represents(s, a) && x < 5
    ensures Bit(ColumnTo(s, x, 5), z) == ColumnParity(a, x, z)
  {
    hide Bit, Xor;
    var c := n requires 0 <= n <= 5 => ColumnTo(s, x, n);
    assert Bit(c(1), z) == a(x, 0, z) by {
      BitOfXor(0, s[At(x, 0)], z);
      ZeroBit(z);
      assert c(1) == Xor(c(0), s[At(x, 0)]);
    }
    BitOfXor(c(1), s[At(x, 1)], z);
    BitOfXor(c(2), s[At(x, 2)], z);
    BitOfXor(c(3), s[At(x, 3)], z);
    BitOfXor(c(4), s[At(x, 4)], z);
  }

  lemma ZeroBit(z: bv6)
    ensures !Bit(0, z)
  {
  }

  lemma ThetaAt(s: seq<bv64>, a: StateArray, x: nat, y: nat, z: bv6)
    requires Represents(s, a) && x < 5 && y < 5
    ensures Bit(ThetaLane(s, x, y), z) == Theta(a)(x, y, z)
  {
    hide Bit, Xor, RotateLeft, ColumnTo, ColumnParity;
    var left, right := (x + 4) % 5, (x + 1) % 5;
    assert (x - 1) % 5 == left;
    var columnLeft, columnRight := ColumnTo(s, left, 5), ColumnTo(s, right, 5);
    BitOfColumn(s, a, left, z);
    BitOfColumn(s, a, right, z - 1);
    BitOfRotation(columnRight, 1, z);
    BitOfXor(columnLeft, RotateLeft(columnRight, 1), z);
    BitOfXor(s[At(x, y)], Delta(s, x), z);
  }

  lemma ThetaRefines(s: seq<bv64>, a: StateArray)
    requires Represents(s, a)
    ensures Represents(LaneTheta(s), Theta(a))
  {
    hide Bit, ThetaLane, Theta;
    forall x: nat, y: nat, z: bv6 | x < 5 && y < 5
      ensures Bit(LaneTheta(s)[At(x, y)], z) == Theta(a)(x, y, z)
    {
      ThetaAt(s, a, x, y, z);
    }
  }

  // ---- rho and pi ----

  /** Section 3.2.2's walk over the 24 lanes other than (0, 0). */
  function WalkLane(i: nat): (int, int) {
    match i
    case 0 => (1, 0) case 1 => (0, 2) case 2 => (2, 1) case 3 => (1, 2) case 4 => (2, 3) case 5 => (3, 3)
    case 6 => (3, 0) case 7 => (0, 1) case 8 => (1, 3) case 9 => (3, 1) case 10 => (1, 4) case 11 => (4, 4)
    case 12 => (4, 0) case 13 => (0, 3) case 14 => (3, 4) case 15 => (4, 3) case 16 => (3, 2) case 17 => (2, 2)
    case 18 => (2, 0) case 19 => (0, 4) case 20 => (4, 2) case 21 => (2, 4) case 22 => (4, 1) case _ => (1, 1)
  }

  /** The iteration at which the walk is at the lane with a given index; lane 0 is never visited. */
  function Visit(i: nat): nat {
    match i
    case 0 => 24 case 1 => 0 case 2 => 18 case 3 => 6 case 4 => 12
    case 5 => 7 case 6 => 23 case 7 => 2 case 8 => 9 case 9 => 22
    case 10 => 1 case 11 => 3 case 12 => 17 case 13 => 16 case 14 => 20
    case 15 => 13 case 16 => 8 case 17 => 4 case 18 => 5 case 19 => 15
    case 20 => 19 case 21 => 10 case 22 => 21 case 23 => 14 case _ => 11
  }

  function NextLane(p: (int, int)): (int, int) {
    (p.1, (2 * p.0 + 3 * p.1) % 5)
  }

  lemma WalkTableFollows(t: nat)
    requires t < 23
    ensures WalkLane(t + 1) == NextLane(WalkLane(t))
  {
  }

  lemma WalkTable(t: nat)
    requires t < 24
    ensures Walk(t) == WalkLane(t)
  {
    if t > 0 {
      WalkTable(t - 1);
      WalkTableFollows(t - 1);
    }
  }

  ghost predicate VisitAgrees(t: nat)
    requires t < 24
  {
    var p := WalkLane(t);
    0 <= p.0 < 5 && 0 <= p.1 < 5 && Visit(At(p.0, p.1)) == t &&
    RotationOffset(At(p.0, p.1)) == Offset(t)
  }

  lemma VisitsAgree(t: nat)
    requires t < 24
    ensures VisitAgrees(t)
  {
  }

  lemma VisitInverse(x: nat, y: nat)
    requires x < 5 && y < 5 && (x, y) != (0, 0)
    ensures Visit(At(x, y)) < 24 && WalkLane(Visit(At(x, y))) == (x, y)
  {
  }

  lemma RhoStep(a: StateArray, t: nat, x: nat, y: nat, z: bv6)
    ensures RhoSteps(a, t + 1)(x, y, z) ==
      if (x, y) == Walk(t) then a(x, y, Back(z, Offset(t))) else RhoSteps(a, t)(x, y, z)
    ensures RhoSteps(a, 0)(x, y, z) == a(x, y, z)
  {
    hide Walk, Offset, Back;
  }

  lemma {:induction false} RhoUnvisited(a: StateArray, t: nat, x: nat, y: nat, z: bv6)
    requires forall u: nat :: u < t ==> Walk(u) != (x, y)
    ensures RhoSteps(a, t)(x, y, z) == a(x, y, z)
  {
    hide RhoSteps, Walk, Offset, Back;
    if t == 0 {
      RhoStep(a, 0, x, y, z);
    } else {
      RhoStep(a, t - 1, x, y, z);
      RhoUnvisited(a, t - 1, x, y, z);
    }
  }

  lemma {:induction false} RhoVisited(a: StateArray, u: nat, t: nat, x: nat, y: nat, z: bv6)
    requires u < t && Walk(u) == (x, y)
    requires forall v: nat :: u < v < t ==> Walk(v) != (x, y)
    ensures RhoSteps(a, t)(x, y, z) == a(x, y, Back(z, Offset(u)))
  {
    hide RhoSteps, Walk, Offset, Back;
    RhoStep(a, t - 1, x, y, z);
    if u < t - 1 {
      RhoVisited(a, u, t - 1, x, y, z);
    }
  }

  lemma WalkVisitsOnce(x: nat, y: nat, t: nat)
    requires x < 5 && y < 5 && t < 24 && Walk(t) == (x, y)
    ensures t == Visit(At(x, y)) && (x, y) != (0, 0) && Offset(t) == RotationOffset(At(x, y))
  {
    hide Offset;
    WalkTable(t);
    VisitsAgree(t);
  }

  lemma WalkVisits(x: nat, y: nat)
    requires x < 5 && y < 5 && (x, y) != (0, 0)
    ensures Visit(At(x, y)) < 24 && Walk(Visit(At(x, y))) == (x, y)
  {
    VisitInverse(x, y);
    WalkTable(Visit(At(x, y)));
  }

  lemma LaneZeroStays(z: bv6)
    ensures Back(z, RotationOffset(At(0, 0))) == z
  {
  }

  /** The offset table is the one that section 3.2.2's walk produces. */
  lemma RhoIsTheOffsetTable(a: StateArray, x: nat, y: nat, z: bv6)
    requires x < 5 && y < 5
    ensures Rho(a)(x, y, z) == a(x, y, Back(z, RotationOffset(At(x, y))))
  {
    hide Offset, Walk, RhoSteps, Back, RotationOffset;
    forall t: nat | t < 24 && Walk(t) == (x, y)
      ensures t == Visit(At(x, y)) && (x, y) != (0, 0) && Offset(t) == RotationOffset(At(x, y))
    {
      WalkVisitsOnce(x, y, t);
    }
    if (x, y) == (0, 0) {
      RhoUnvisited(a, 24, x, y, z);
      LaneZeroStays(z);
    } else {
      WalkVisits(x, y);
      RhoVisited(a, Visit(At(x, y)), 24, x, y, z);
    }
  }

  lemma RhoPiAt(s: seq<bv64>, a: StateArray, x: nat, y: nat, z: bv6)
    requires |s| == 25 && Represents(s, a) && x < 5 && y < 5
    ensures Bit(RotatedLane(s, (x + 3 * y) % 5, x), z) == Pi(Rho(a))(x, y, z)
  {
    hide Bit, RotateLeft, Rho, Represents, At, Back, RotationOffset;
    var i := (x + 3 * y) % 5;
    RhoIsTheOffsetTable(a, i, x, z);
    BitOfRotation(s[At(i, x)], RotationOffset(At(i, x)), z);
    BitAt(s, a, i, x, Back(z, RotationOffset(At(i, x))));
  }

  lemma RhoPiRefines(s: seq<bv64>, a: StateArray)
    requires |s| == 25 && Represents(s, a)
    ensures Represents(LaneRhoPi(s), Pi(Rho(a)))
  {
    hide Bit, RotatedLane, LaneRhoPi, Pi, Rho, At;
    var r := LaneRhoPi(s);
    forall x: nat, y: nat, z: bv6 | x < 5 && y < 5 ensures Bit(r[At(x, y)], z) == Pi(Rho(a))(x, y, z) {
      RhoPiLane(s, x, y);
      RhoPiAt(s, a, x, y, z);
    }
  }

  // ---- chi and iota ----

  lemma BitAt(s: seq<bv64>, a: StateArray, x: nat, y: nat, z: bv6)
    requires Represents(s, a) && x < 5 && y < 5
    ensures Bit(s[At(x, y)], z) == a(x, y, z)
  {
    hide Bit, At;
  }

  lemma ChiAt(s: seq<bv64>, a: StateArray, x: nat, y: nat, z: bv6)
    requires |s| == 25 && Represents(s, a) && x < 5 && y < 5
    ensures Bit(ChiLane(s, x, y), z) == Chi(a)(x, y, z)
  {
    hide Bit, Xor, AndNot, At, Represents;
    BitAt(s, a, x, y, z);
    BitAt(s, a, (x + 1) % 5, y, z);
    BitAt(s, a, (x + 2) % 5, y, z);
    ChiBit(s[At(x, y)], s[At((x + 1) % 5, y)], s[At((x + 2) % 5, y)], z);
  }

  lemma ChiBit(lane: bv64, next: bv64, nextAgain: bv64, z: bv6)
    ensures Bit(Xor(lane, AndNot(next, nextAgain)), z) == (Bit(lane, z) != (!Bit(next, z) && Bit(nextAgain, z)))
  {
    hide Bit, Xor, AndNot;
    BitOfAndNot(next, nextAgain, z);
    BitOfXor(lane, AndNot(next, nextAgain), z);
  }

  lemma ChiRefines(s: seq<bv64>, a: StateArray)
    requires Represents(s, a)
    ensures Represents(LaneChi(s), Chi(a))
  {
    hide Bit, ChiLane, Chi;
    forall x: nat, y: nat, z: bv6 | x < 5 && y < 5
      ensures Bit(LaneChi(s)[At(x, y)], z) == Chi(a)(x, y, z)
    {
      ChiAt(s, a, x, y, z);
    }
  }

  /** The shift register at the start of each round's seven outputs. */
  function RegisterOf(i: nat): bv8 {
    match i
    case 0 => 0x01 case 1 => 0x80 case 2 => 0xd8 case 3 => 0x1a case 4 => 0xdf case 5 => 0x09
    case 6 => 0x35 case 7 => 0x4f case 8 => 0xca case 9 => 0x70 case 10 => 0x41 case 11 => 0xec
    case 12 => 0xd5 case 13 => 0xcd case 14 => 0x63 case 15 => 0xab case 16 => 0xaa case 17 => 0x2a
    case 18 => 0xf2 case 19 => 0xe8 case 20 => 0x37 case 21 => 0x3e case 22 => 0x0b case _ => 0x44
  }

  function Steps(r: bv8, n: nat): bv8 {
    if n == 0 then r else RegisterStep(Steps(r, n - 1))
  }

  lemma {:induction false} RegisterSplits(m: nat, n: nat)
    ensures Register(m + n) == Steps(Register(m), n)
  {
    if n > 0 {
      RegisterSplits(m, n - 1);
    }
  }

  function SevenSteps(r: bv8): bv8 {
    RegisterStep(RegisterStep(RegisterStep(RegisterStep(RegisterStep(RegisterStep(RegisterStep(r)))))))
  }

  /** The round constant whose seven bits are the next outputs of the register. */
  function ConstantFrom(r0: bv8): bv64 {
    var r1 := RegisterStep(r0);
    var r2 := RegisterStep(r1);
    var r3 := RegisterStep(r2);
    var r4 := RegisterStep(r3);
    var r5 := RegisterStep(r4);
    var r6 := RegisterStep(r5);
    ((r0 & 1) as bv64) | (((r1 & 1) as bv64) << 1) | (((r2 & 1) as bv64) << 3) | (((r3 & 1) as bv64) << 7) |
    (((r4 & 1) as bv64) << 15) | (((r5 & 1) as bv64) << 31) | (((r6 & 1) as bv64) << 63)
  }

  /** The seven outputs of a round make its constant, and seven steps lead to the next round. */
  ghost predicate ConstantAgrees(round: nat)
    requires round < 24
  {
    ConstantFrom(RegisterOf(round)) == RoundConstant(round) &&
    (round < 23 ==> SevenSteps(RegisterOf(round)) == RegisterOf(round + 1))
  }

  lemma EarlyConstantsAgree(round: nat)
    requires round < 8
    ensures ConstantAgrees(round)
  {
  }

  lemma MiddleConstantsAgree(round: nat)
    requires 8 <= round < 16
    ensures ConstantAgrees(round)
  {
  }

  lemma LateConstantsAgree(round: nat)
    requires 16 <= round < 24
    ensures ConstantAgrees(round)
  {
  }

  lemma ConstantsAgree(round: nat)
    requires round < 24
    ensures ConstantAgrees(round)
  {
    hide ConstantAgrees;
    if round < 8 {
      EarlyConstantsAgree(round);
    } else if round < 16 {
      MiddleConstantsAgree(round);
    } else {
      LateConstantsAgree(round);
    }
  }

  lemma SevenStepsAreTheRegister(t: nat)
    ensures Register(t + 7) == SevenSteps(Register(t))
  {
    hide RegisterStep;
    RegisterSplits(t, 7);
    SevenStepsAreSteps(Register(t));
  }

  lemma RegisterAtRound(round: nat)
    requires round < 24
    ensures Register(7 * round) == RegisterOf(round)
  {
    hide ConstantFrom, SevenSteps, RegisterStep, RoundConstant, Register;
    if round > 0 {
      RegisterAtRound(round - 1);
      ConstantsAgree(round - 1);
      SevenStepsAreTheRegister(7 * (round - 1));
      assert 7 * (round - 1) + 7 == 7 * round;
    } else {
      RegisterStart();
    }
  }

  lemma RegisterStart()
    ensures Register(0) == 1
  {
  }

  lemma SevenStepsAreSteps(r: bv8)
    ensures Steps(r, 7) == SevenSteps(r)
    ensures Steps(r, 1) == RegisterStep(r)
    ensures forall n: nat :: n < 7 ==> Steps(r, n + 1) == RegisterStep(Steps(r, n))
  {
    hide RegisterStep;
    assert Steps(r, 1) == RegisterStep(Steps(r, 0));
    assert Steps(r, 2) == RegisterStep(Steps(r, 1));
    assert Steps(r, 4) == RegisterStep(RegisterStep(Steps(r, 2)));
    assert Steps(r, 6) == RegisterStep(RegisterStep(Steps(r, 4)));
  }

  lemma ConstantBits(r: bv8, z: bv6)
    ensures Bit(ConstantFrom(r), z) ==
      if z == 0 then r & 1 == 1
      else if z == 1 then Steps(r, 1) & 1 == 1
      else if z == 3 then Steps(r, 2) & 1 == 1
      else if z == 7 then Steps(r, 3) & 1 == 1
      else if z == 15 then Steps(r, 4) & 1 == 1
      else if z == 31 then Steps(r, 5) & 1 == 1
      else if z == 63 then Steps(r, 6) & 1 == 1
      else false
  {
    hide RegisterStep;
    SevenStepsAreSteps(r);
    WordBits(r & 1, Steps(r, 1) & 1, Steps(r, 2) & 1, Steps(r, 3) & 1, Steps(r, 4) & 1, Steps(r, 5) & 1,
             Steps(r, 6) & 1, z);
  }

  lemma WordBits(b0: bv8, b1: bv8, b2: bv8, b3: bv8, b4: bv8, b5: bv8, b6: bv8, z: bv6)
    requires b0 <= 1 && b1 <= 1 && b2 <= 1 && b3 <= 1 && b4 <= 1 && b5 <= 1 && b6 <= 1
    ensures Bit((b0 as bv64) | ((b1 as bv64) << 1) | ((b2 as bv64) << 3) | ((b3 as bv64) << 7) |
                ((b4 as bv64) << 15) | ((b5 as bv64) << 31) | ((b6 as bv64) << 63), z) ==
      if z == 0 then b0 == 1
      else if z == 1 then b1 == 1
      else if z == 3 then b2 == 1
      else if z == 7 then b3 == 1
      else if z == 15 then b4 == 1
      else if z == 31 then b5 == 1
      else if z == 63 then b6 == 1
      else false
  {
  }

  lemma RcInRound(round: nat, j: nat)
    requires round < 24 && j < 7
    ensures Rc(j + 7 * round) == (Steps(RegisterOf(round), j) & 1 == 1)
  {
    hide RegisterStep, Steps;
    RegisterAtRound(round);
    RegisterSplits(7 * round, j);
    assert (j + 7 * round) % 255 == 7 * round + j;
  }

  /** The table of round constants is what the shift register of section 3.2.5 generates. */
  lemma RoundConstantsAreGenerated(round: nat, z: bv6)
    requires round < 24
    ensures Bit(RoundConstant(round), z) == RoundConstantBit(round, z)
  {
    hide Bit, RegisterStep, ConstantFrom, RoundConstant, Rc, Steps;
    var r := RegisterOf(round);
    ConstantsAgree(round);
    ConstantBits(r, z);
    RcInRound(round, 0);
    RcInRound(round, 1);
    RcInRound(round, 2);
    RcInRound(round, 3);
    RcInRound(round, 4);
    RcInRound(round, 5);
    RcInRound(round, 6);
    StepsNone(r);
  }

  lemma StepsNone(r: bv8)
    ensures Steps(r, 0) == r
  {
  }

  lemma IotaRefines(s: seq<bv64>, a: StateArray, round: nat)
    requires Represents(s, a) && round < 24
    ensures Represents(LaneIota(s, RoundConstant(round)), Iota(a, round))
  {
    hide Bit, Xor, RoundConstant, RoundConstantBit;
    forall x: nat, y: nat, z: bv6 | x < 5 && y < 5
      ensures Bit(LaneIota(s, RoundConstant(round))[At(x, y)], z) == Iota(a, round)(x, y, z)
    {
      RoundConstantsAreGenerated(round, z);
      BitOfXor(s[0], RoundConstant(round), z);
      assert Bit(s[At(0, 0)], z) == a(0, 0, z);
    }
  }

  // ---- the permutation ----

  lemma {:induction false} RoundsRefine(s: seq<bv64>, a: StateArray, n: nat)
    requires |s| == 25 && Represents(s, a) && n <= 24
    ensures Represents(LaneRounds(s, n), Rounds(a, n))
  {
    hide Represents, LaneTheta, LaneRhoPi, LaneChi, LaneIota, Theta, Rho, Pi, Chi, Iota;
    if n > 0 {
      RoundsRefine(s, a, n - 1);
      var l, b := LaneRounds(s, n - 1), Rounds(a, n - 1);
      ThetaRefines(l, b);
      RhoPiRefines(LaneTheta(l), Theta(b));
      ChiRefines(LaneRhoPi(LaneTheta(l)), Pi(Rho(Theta(b))));
      IotaRefines(LaneChi(LaneRhoPi(LaneTheta(l))), Chi(Pi(Rho(Theta(b)))), n - 1);
    }
  }

  /** keccakF1600's lanes hold KECCAK-f[1600] of the bits that they held before. */
  lemma KeccakRefines(s: seq<bv64>, a: StateArray)
    requires Represents(s, a)
    ensures Represents(LaneRounds(s, 24), KeccakF(a))
  {
    RoundsRefine(s, a, 24);
  }
}
