/** The lane-oriented SHA3-256 of extension/src/hns-name-hash.js.  The source keeps every lane below
    2^64 with MASK_64, so a lane is a 64-bit vector.  The last lemmas of this module connect the code
    with the bit-level standard of module Fips202. */
module Keccak {
  import opened Fips202

  const RATE_BYTES := 136

  /** The rotation offsets, by lane index. */
  function RotationOffset(i: nat): (r: nat)
    requires i < 25
    ensures r < 64
  {
    match i
    case 0 => 0 case 1 => 1 case 2 => 62 case 3 => 28 case 4 => 27
    case 5 => 36 case 6 => 44 case 7 => 6 case 8 => 55 case 9 => 20
    case 10 => 3 case 11 => 10 case 12 => 43 case 13 => 25 case 14 => 39
    case 15 => 41 case 16 => 45 case 17 => 15 case 18 => 21 case 19 => 8
    case 20 => 18 case 21 => 2 case 22 => 61 case 23 => 56 case _ => 14
  }

  /** The round constants. */
  function RoundConstant(i: nat): bv64
    requires i < 24
  {
    match i
    case 0 => 0x0000000000000001 case 1 => 0x0000000000008082 case 2 => 0x800000000000808a
    case 3 => 0x8000000080008000 case 4 => 0x000000000000808b case 5 => 0x0000000080000001
    case 6 => 0x8000000080008081 case 7 => 0x8000000000008009 case 8 => 0x000000000000008a
    case 9 => 0x0000000000000088 case 10 => 0x0000000080008009 case 11 => 0x000000008000000a
    case 12 => 0x000000008000808b case 13 => 0x800000000000008b case 14 => 0x8000000000008089
    case 15 => 0x8000000000008003 case 16 => 0x8000000000008002 case 17 => 0x8000000000000080
    case 18 => 0x000000000000800a case 19 => 0x800000008000000a case 20 => 0x8000000080008081
    case 21 => 0x8000000000008080 case 22 => 0x0000000080000001 case _ => 0x8000000080008008
  }

  function Xor(a: bv64, b: bv64): bv64 {
    a ^ b
  }

  function AndNot(a: bv64, b: bv64): bv64 {
    !a & b
  }

  function Or(a: bv64, b: bv64): bv64 {
    a | b
  }

  function ShiftLeft(value: bv64, shift: bv6): bv64 {
    value << shift
  }

  function ShiftRightBySixtyFourMinus(value: bv64, shift: bv6): bv64 {
    value >> (64 - (shift as bv7))
  }

  function RotateLeft(value: bv64, shift: nat): bv64
    requires shift < 64
  {
    Or(ShiftLeft(value, Amount(shift)), ShiftRightBySixtyFourMinus(value, Amount(shift)))
  }

  // ---- the 25 lanes as a grid ----

  /** The index of lane (x, y). */
  function At(x: nat, y: nat): (i: nat)
    requires x < 5 && y < 5
    ensures i < 25
  {
    x + 5 * y
  }

  function Grid(f: (nat, nat) --> bv64): (r: seq<bv64>)
    requires forall x: nat, y: nat :: x < 5 && y < 5 ==> f.requires(x, y)
    ensures |r| == 25
    ensures forall x: nat, y: nat :: x < 5 && y < 5 ==> r[At(x, y)] == f(x, y)
  {
    seq(25, i requires 0 <= i < 25 => f(i % 5, i / 5))
  }

  lemma GridsEqual(s: seq<bv64>, t: seq<bv64>)
    requires |s| == |t| == 25
    requires forall x: nat, y: nat :: x < 5 && y < 5 ==> s[At(x, y)] == t[At(x, y)]
    ensures s == t
  {
    forall i | 0 <= i < 25 ensures s[i] == t[i] {
      assert i == At(i % 5, i / 5);
    }
  }

  // ---- what each phase of the permutation computes on lanes ----

  function ColumnTo(s: seq<bv64>, x: nat, n: nat): bv64
    requires |s| == 25 && x < 5 && n <= 5
  {
    if n == 0 then 0 else Xor(ColumnTo(s, x, n - 1), s[At(x, n - 1)])
  }

  function Delta(s: seq<bv64>, x: nat): bv64
    requires |s| == 25 && x < 5
  {
    Xor(ColumnTo(s, (x + 4) % 5, 5), RotateLeft(ColumnTo(s, (x + 1) % 5, 5), 1))
  }

  function ThetaLane(s: seq<bv64>, x: nat, y: nat): bv64
    requires |s| == 25 && x < 5 && y < 5
  {
    Xor(s[At(x, y)], Delta(s, x))
  }

  function LaneTheta(s: seq<bv64>): (r: seq<bv64>)
    requires |s| == 25
    ensures |r| == 25
  {
    Grid((x: nat, y: nat) requires x < 5 && y < 5 => ThetaLane(s, x, y))
  }

  /** Where the fused rho and pi put the lane (x, y). */
  function Target(x: nat, y: nat): nat
    requires x < 5 && y < 5
  {
    y + 5 * ((2 * x + 3 * y) % 5)
  }

  function RotatedLane(s: seq<bv64>, x: nat, y: nat): bv64
    requires |s| == 25 && x < 5 && y < 5
  {
    RotateLeft(s[At(x, y)], RotationOffset(At(x, y)))
  }

  function LaneRhoPi(s: seq<bv64>): (r: seq<bv64>)
    requires |s| == 25
    ensures |r| == 25
  {
    Grid((x: nat, y: nat) requires x < 5 && y < 5 => RotatedLane(s, (x + 3 * y) % 5, x))
  }

  function ChiLane(s: seq<bv64>, x: nat, y: nat): bv64
    requires |s| == 25 && x < 5 && y < 5
  {
    Xor(s[At(x, y)], AndNot(s[At((x + 1) % 5, y)], s[At((x + 2) % 5, y)]))
  }

  function LaneChi(s: seq<bv64>): (r: seq<bv64>)
    requires |s| == 25
    ensures |r| == 25
  {
    Grid((x: nat, y: nat) requires x < 5 && y < 5 => ChiLane(s, x, y))
  }

  function LaneIota(s: seq<bv64>, roundConstant: bv64): (r: seq<bv64>)
    requires |s| == 25
    ensures |r| == 25
  {
    s[0 := Xor(s[0], roundConstant)]
  }

  function LaneRounds(s: seq<bv64>, n: nat): (r: seq<bv64>)
    requires |s| == 25 && n <= 24
    ensures |r| == 25
  {
    if n == 0 then s
    else LaneIota(LaneChi(LaneRhoPi(LaneTheta(LaneRounds(s, n - 1)))), RoundConstant(n - 1))
  }

  // ---- the permutation, in place ----

  method Columns(state: array<bv64>) returns (columns: array<bv64>)
    requires state.Length == 25
    ensures fresh(columns) && columns.Length == 5
    ensures forall k: nat :: k < 5 ==> columns[k] == ColumnTo(state[..], k, 5)
  {
    hide Xor;
    columns := new bv64[5](_ => 0);
    for x := 0 to 5
      invariant forall k: nat :: k < 5 ==> columns[k] == if k < x then ColumnTo(state[..], k, 5) else 0
    {
      for y := 0 to 5
        invariant forall k: nat :: k < 5 && k != x ==> columns[k] == if k < x then ColumnTo(state[..], k, 5) else 0
        invariant columns[x] == ColumnTo(state[..], x, y)
      {
        columns[x] := Xor(columns[x], state[At(x, y)]);
      }
    }
  }

  /** The inner loop of theta: one column changes, the others do not. */
  method XorColumn(state: array<bv64>, x: nat, delta: bv64)
    requires state.Length == 25 && x < 5
    modifies state
    ensures forall j: nat :: j < 5 ==> state[At(x, j)] == Xor(old(state[At(x, j)]), delta)
    ensures forall i: nat, j: nat :: i < 5 && j < 5 && i != x ==> state[At(i, j)] == old(state[At(i, j)])
  {
    for y := 0 to 5
      invariant forall j: nat :: j < y ==> state[At(x, j)] == Xor(old(state[At(x, j)]), delta)
      invariant forall j: nat :: y <= j < 5 ==> state[At(x, j)] == old(state[At(x, j)])
      invariant forall i: nat, j: nat :: i < 5 && j < 5 && i != x ==> state[At(i, j)] == old(state[At(i, j)])
    {
      state[At(x, y)] := Xor(state[At(x, y)], delta);
    }
  }

  method ThetaInPlace(state: array<bv64>)
    requires state.Length == 25
    modifies state
    ensures state[..] == LaneTheta(old(state[..]))
  {
    hide RotateLeft, ColumnTo, Xor;
    ghost var was := state[..];
    var columns := Columns(state);
    for x := 0 to 5
      invariant forall k: nat :: k < 5 ==> columns[k] == ColumnTo(was, k, 5)
      invariant forall i: nat, j: nat :: i < x && j < 5 ==> state[At(i, j)] == ThetaLane(was, i, j)
      invariant forall i: nat, j: nat :: x <= i < 5 && j < 5 ==> state[At(i, j)] == was[At(i, j)]
    {
      var delta := Xor(columns[(x + 4) % 5], RotateLeft(columns[(x + 1) % 5], 1));
      assert delta == Delta(was, x);
      XorColumn(state, x, delta);
    }
    GridsEqual(state[..], LaneTheta(was));
  }

  lemma TargetInjective(x: nat, y: nat, i: nat, j: nat)
    requires x < 5 && y < 5 && i < 5 && j < 5
    ensures Target(x, y) < 25
    ensures Target(x, y) == Target(i, j) ==> x == i && y == j
  {
    var v, w := 2 * x + 3 * y, 2 * i + 3 * j;
    if Target(x, y) == Target(i, j) {
      QuotientsAgree(x, y, v / 5, v % 5, i, j, w / 5, w % 5);
    }
  }

  lemma QuotientsAgree(x: nat, y: nat, q: int, m: int, i: nat, j: nat, p: int, n: int)
    requires x < 5 && y < 5 && i < 5 && j < 5
    requires 2 * x + 3 * y == 5 * q + m && 0 <= m < 5
    requires 2 * i + 3 * j == 5 * p + n && 0 <= n < 5
    requires y + 5 * m == j + 5 * n
    ensures x == i && y == j
  {
    assert m == n;
    TwiceIsNoOddFive(x - i, q - p);
  }

  lemma TwiceIsNoOddFive(d: int, e: int)
    requires 2 * d == 5 * e && -5 < d < 5
    ensures d == 0
  {
    assert -2 < e < 2;
  }

  lemma TargetOfSource(x: nat, y: nat)
    requires x < 5 && y < 5
    ensures Target((x + 3 * y) % 5, x) == At(x, y)
  {
    var v := x + 3 * y;
    var k := x + y - 2 * (v / 5);
    assert 2 * (v % 5) + 3 * x == 5 * k + y;
    RemainderIs(2 * (v % 5) + 3 * x, k, y);
  }

  lemma RemainderIs(value: int, k: int, r: int)
    requires value == 5 * k + r && 0 <= r < 5
    ensures value % 5 == r
  {
  }

  /** One rotated lane put in its place; the other places keep their lanes. */
  method Place(rotated: array<bv64>, x: nat, y: nat, lane: bv64)
    requires rotated.Length == 25 && x < 5 && y < 5
    modifies rotated
    ensures forall i: nat, j: nat :: i < 5 && j < 5 ==> Target(i, j) < 25
    ensures rotated[Target(x, y)] == lane
    ensures forall i: nat, j: nat :: i < 5 && j < 5 && (i, j) != (x, y) ==>
      rotated[Target(i, j)] == old(rotated[Target(i, j)])
  {
    forall i: nat, j: nat | i < 5 && j < 5
      ensures Target(i, j) < 25 && (Target(x, y) == Target(i, j) ==> x == i && y == j)
    {
      TargetInjective(x, y, i, j);
    }
    rotated[Target(x, y)] := lane;
  }

  lemma RhoPiLane(s: seq<bv64>, x: nat, y: nat)
    requires |s| == 25 && x < 5 && y < 5
    ensures LaneRhoPi(s)[At(x, y)] == RotatedLane(s, (x + 3 * y) % 5, x)
  {
    hide RotatedLane, At;
  }

  method RhoPiColumn(state: array<bv64>, rotated: array<bv64>, x: nat)
    requires state.Length == 25 && rotated.Length == 25 && state != rotated && x < 5
    modifies rotated
    ensures forall i: nat, j: nat :: i < 5 && j < 5 ==> Target(i, j) < 25
    ensures forall j: nat :: j < 5 ==> rotated[Target(x, j)] == RotatedLane(state[..], x, j)
    ensures forall i: nat, j: nat :: i < 5 && j < 5 && i != x ==>
      rotated[Target(i, j)] == old(rotated[Target(i, j)])
  {
    hide RotateLeft, Target, At, RotationOffset;
    ghost var s := state[..];
    forall i: nat, j: nat | i < 5 && j < 5 ensures Target(i, j) < 25 { TargetInjective(i, j, i, j); }
    for y := 0 to 5
      invariant state[..] == s
      invariant forall j: nat :: j < y ==> rotated[Target(x, j)] == RotatedLane(s, x, j)
      invariant forall i: nat, j: nat :: i < 5 && j < 5 && i != x ==>
        rotated[Target(i, j)] == old(rotated[Target(i, j)])
    {
      var source := At(x, y);
      assert state[source] == s[source];
      Place(rotated, x, y, RotateLeft(state[source], RotationOffset(source)));
    }
  }

  method RhoPi(state: array<bv64>) returns (rotated: array<bv64>)
    requires state.Length == 25
    ensures fresh(rotated) && rotated.Length == 25
    ensures rotated[..] == LaneRhoPi(state[..])
  {
    hide RotatedLane, Target, LaneRhoPi, At;
    ghost var s := state[..];
    rotated := new bv64[25](_ => 0);
    forall i: nat, j: nat | i < 5 && j < 5 ensures Target(i, j) < 25 { TargetInjective(i, j, i, j); }
    for x := 0 to 5
      invariant state[..] == s
      invariant forall i: nat, j: nat :: i < x && j < 5 ==> rotated[Target(i, j)] == RotatedLane(s, i, j)
    {
      RhoPiColumn(state, rotated, x);
    }
    forall x: nat, y: nat | x < 5 && y < 5 ensures rotated[..][At(x, y)] == LaneRhoPi(s)[At(x, y)] {
      TargetOfSource(x, y);
      RhoPiLane(s, x, y);
      assert rotated[Target((x + 3 * y) % 5, x)] == RotatedLane(s, (x + 3 * y) % 5, x);
    }
    GridsEqual(rotated[..], LaneRhoPi(s));
  }

  method ChiColumn(state: array<bv64>, rotated: array<bv64>, x: nat)
    requires state.Length == 25 && rotated.Length == 25 && state != rotated && x < 5
    modifies state
    ensures forall j: nat :: j < 5 ==> state[At(x, j)] == ChiLane(rotated[..], x, j)
    ensures forall i: nat, j: nat :: i < 5 && j < 5 && i != x ==> state[At(i, j)] == old(state[At(i, j)])
  {
    hide Xor, AndNot;
    for y := 0 to 5
      invariant forall j: nat :: j < y ==> state[At(x, j)] == ChiLane(rotated[..], x, j)
      invariant forall i: nat, j: nat :: i < 5 && j < 5 && i != x ==> state[At(i, j)] == old(state[At(i, j)])
    {
      var next, nextAgain := At((x + 1) % 5, y), At((x + 2) % 5, y);
      state[At(x, y)] := Xor(rotated[At(x, y)], AndNot(rotated[next], rotated[nextAgain]));
    }
  }

  method ChiInPlace(state: array<bv64>, rotated: array<bv64>)
    requires state.Length == 25 && rotated.Length == 25 && state != rotated
    modifies state
    ensures state[..] == LaneChi(old(rotated[..]))
  {
    hide ChiLane;
    ghost var r := rotated[..];
    for x := 0 to 5
      invariant rotated[..] == r
      invariant forall i: nat, j: nat :: i < x && j < 5 ==> state[At(i, j)] == ChiLane(r, i, j)
    {
      ChiColumn(state, rotated, x);
    }
    GridsEqual(state[..], LaneChi(r));
  }

  method IotaInPlace(state: array<bv64>, roundConstant: bv64)
    requires state.Length == 25
    modifies state
    ensures state[..] == LaneIota(old(state[..]), roundConstant)
  {
    hide Xor;
    state[0] := Xor(state[0], roundConstant);
  }

  method RoundInPlace(state: array<bv64>, roundConstant: bv64)
    requires state.Length == 25
    modifies state
    ensures state[..] == LaneIota(LaneChi(LaneRhoPi(LaneTheta(old(state[..])))), roundConstant)
  {
    hide *;
    ThetaInPlace(state);
    var rotated := RhoPi(state);
    ChiInPlace(state, rotated);
    IotaInPlace(state, roundConstant);
  }

  method KeccakF1600(state: array<bv64>)
    requires state.Length == 25
    modifies state
    ensures state[..] == LaneRounds(old(state[..]), 24)
  {
    hide LaneTheta, LaneRhoPi, LaneChi, LaneIota, RoundConstant;
    for round := 0 to 24
      invariant state[..] == LaneRounds(old(state[..]), round)
    {
      RoundInPlace(state, RoundConstant(round));
    }
  }
}
