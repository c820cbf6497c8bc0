/**
 The two constant tables of packages/trace/python/trace.py, and proofs that they are the
 ones FIPS 202 generates: the rotation offsets by the walk of Algorithm 2, the round
 constants by the shift register of Algorithm 5.
 */
module KeccakTables {
  import opened PyInts
  import opened Fips202

  const ROTATION_OFFSETS: seq<nat> := [
    0, 1, 62, 28, 27,
    36, 44, 6, 55, 20,
    3, 10, 43, 25, 39,
    41, 45, 15, 21, 8,
    18, 2, 61, 56, 14
  ]

  const ROUND_CONSTANTS: seq<int> := [
    0x0000000000000001,
    0x0000000000008082,
    0x800000000000808A,
    0x8000000080008000,
    0x000000000000808B,
    0x0000000080000001,
    0x8000000080008081,
    0x8000000000008009,
    0x000000000000008A,
    0x0000000000000088,
    0x0000000080008009,
    0x000000008000000A,
    0x000000008000808B,
    0x800000000000008B,
    0x8000000000008089,
    0x8000000000008003,
    0x8000000000008002,
    0x8000000000000080,
    0x000000000000800A,
    0x800000008000000A,
    0x8000000080008081,
    0x8000000000008080,
    0x0000000080000001,
    0x8000000080008008
  ]

  /** The lanes x + 5 y in the order in which the walk of Algorithm 2 visits them. */
  const LANES: seq<nat> := [
    1, 10, 7, 11, 17, 18, 3, 5, 16, 8, 21, 24,
    4, 15, 23, 19, 13, 12, 2, 20, 14, 22, 9, 6
  ]

  /** When the walk visits a lane; it never visits lane 0. */
  const STEPS: seq<nat> := [
    24, 0, 18, 6, 12,
    7, 23, 2, 9, 22,
    1, 3, 17, 16, 20,
    13, 8, 4, 5, 15,
    19, 10, 21, 14, 11
  ]

  lemma NextLane(t: nat, x: int, y: int)
    requires 0 < t < 24 && 0 <= x < 5 && 0 <= y < 5 && LANES[t - 1] == x + 5 * y
    ensures LANES[t] == y + 5 * ((2 * x + 3 * y) % 5)
  {
  }

  lemma Sizes()
    ensures |LANES| == 24 && |STEPS| == 25 && |ROTATION_OFFSETS| == 25 && |ROUND_CONSTANTS| == 24
    ensures LANES[0] == 1
  {
  }

  lemma {:induction false} WalkStep(t: nat)
    requires t < 24
    ensures var p := Walk(t);
            0 <= p.0 < 5 && 0 <= p.1 < 5 && LANES[t] == p.0 + 5 * p.1
  {
    Sizes();
    hide LANES;
    if t > 0 {
      WalkStep(t - 1);
      NextLane(t, Walk(t - 1).0, Walk(t - 1).1);
    }
  }

  /** The walk visits every lane but lane 0, and visits it once. */
  lemma LaneOfStep(t: nat)
    requires t < 24
    ensures 0 < LANES[t] < 25 && STEPS[LANES[t]] == t
  {
  }

  lemma StepOfLane(lane: nat)
    requires 0 < lane < 25
    ensures STEPS[lane] < 24 && LANES[STEPS[lane]] == lane
  {
  }

  lemma {:induction false} OffsetFound(x: int, y: int, u: nat, t: nat)
    requires u <= t < 24 && Walk(t) == (x, y)
    requires forall v :: u <= v < t ==> Walk(v) != (x, y)
    ensures RhoOffset(x, y, u) == (t + 1) * (t + 2) / 2
    decreases t - u
  {
    hide Walk;
    if u < t {
      OffsetFound(x, y, u + 1, t);
    }
  }

  lemma {:induction false} OffsetMissing(x: int, y: int, u: nat)
    requires u <= 24
    requires forall v :: u <= v < 24 ==> Walk(v) != (x, y)
    ensures RhoOffset(x, y, u) == 0
    decreases 24 - u
  {
    hide Walk;
    if u < 24 {
      OffsetMissing(x, y, u + 1);
    }
  }

  lemma EarlyEntry(lane: nat)
    requires 0 < lane < 13
    ensures ROTATION_OFFSETS[lane] == (STEPS[lane] + 1) * (STEPS[lane] + 2) / 2 % 64
  {
  }

  lemma LateEntry(lane: nat)
    requires 13 <= lane < 25
    ensures ROTATION_OFFSETS[lane] == (STEPS[lane] + 1) * (STEPS[lane] + 2) / 2 % 64
  {
  }

  lemma TableEntry(lane: nat)
    requires lane < 25
    ensures ROTATION_OFFSETS[lane] == if lane == 0 then 0 else (STEPS[lane] + 1) * (STEPS[lane] + 2) / 2 % 64
  {
    hide STEPS;
    if lane >= 13 {
      LateEntry(lane);
    } else if lane > 0 {
      EarlyEntry(lane);
    }
  }

  /** The table holds the offsets of the standard, modulo the lane width. */
  lemma RotationTable(x: int, y: int)
    requires 0 <= x < 5 && 0 <= y < 5
    ensures ROTATION_OFFSETS[x + 5 * y] == RhoOffset(x, y) % 64
  {
    Sizes();
    hide Walk, RhoOffset, ROTATION_OFFSETS, LANES, STEPS;
    var lane := x + 5 * y;
    TableEntry(lane);
    forall v: nat | v < 24 && Walk(v) == (x, y)
      ensures lane > 0 && v == STEPS[lane]
    {
      WalkStep(v);
      LaneOfStep(v);
      assert LANES[v] == lane;
    }
    if lane == 0 {
      OffsetMissing(0, 0, 0);
    } else {
      StepOfLane(lane);
      WalkStep(STEPS[lane]);
      OffsetFound(x, y, 0, STEPS[lane]);
    }
  }

  /** Seven bits at the places 0, 1, 3, 7, 15, 31 and 63 of a number. */
  function Placed(b0: bool, b1: bool, b2: bool, b3: bool, b4: bool, b5: bool, b6: bool): int {
    Digit(b0) + 0x2 * (Digit(b1) + 0x4 * (Digit(b2) + 0x10 * (Digit(b3) + 0x100 * (Digit(b4)
    + 0x10000 * (Digit(b5) + 0x100000000 * Digit(b6))))))
  }

  /** RC of round `ir` as a number. */
  function RoundValue(ir: nat): int {
    var t := 7 * ir;
    Placed(RoundBit(t), RoundBit(t + 1), RoundBit(t + 2), RoundBit(t + 3), RoundBit(t + 4), RoundBit(t + 5), RoundBit(t + 6))
  }

  lemma Shift(t: nat, r0: bool, r1: bool, r2: bool, r3: bool, r4: bool, r5: bool, r6: bool, r7: bool)
    requires RegisterAt(t) == R(r0, r1, r2, r3, r4, r5, r6, r7)
    ensures RegisterAt(t + 1) == R(r7, r0, r1, r2, r3 != r7, r4 != r7, r5 != r7, r6)
  {
  }

  /** Seven shifts: t1 to t7 are the bits shifted out, and the lowest bits after each shift. */
  lemma Advance(ir: nat, r0: bool, r1: bool, r2: bool, r3: bool, r4: bool, r5: bool, r6: bool, r7: bool)
    requires RegisterAt(7 * ir) == R(r0, r1, r2, r3, r4, r5, r6, r7)
    ensures var t1, t2, t3 := r7, r6, r5 != r7;
            var t4, t5, t6 := (r4 != t1) != t2, ((r3 != t1) != t2) != t3, ((r2 != t2) != t3) != ((r4 != t1) != t2);
            var t7 := ((r1 != t3) != t4) != t5;
            RoundValue(ir) == Placed(r0, t1, t2, t3, t4, t5, t6) &&
            RegisterAt(7 * ir + 7) == R(t7, t6, t5, t4, t3 != t7, (t2 != t6) != t7, ((t1 != t5) != t6) != t7,
                                        ((r0 != t4) != t5) != t6)
  {
    hide RegisterAt, Placed;
    var t := 7 * ir;
    var t1, t2, t3 := r7, r6, r5 != r7;
    var t4, t5 := (r4 != t1) != t2, ((r3 != t1) != t2) != t3;
    var t6 := ((r2 != t2) != t3) != t4;
    Shift(t, r0, r1, r2, r3, r4, r5, r6, r7);
    Shift(t + 1, t1, r0, r1, r2, r3 != t1, r4 != t1, r5 != t1, r6);
    Shift(t + 2, t2, t1, r0, r1, r2 != t2, (r3 != t1) != t2, (r4 != t1) != t2, t3);
    Shift(t + 3, t3, t2, t1, r0, r1 != t3, (r2 != t2) != t3, t5, t4);
    Shift(t + 4, t4, t3, t2, t1, r0 != t4, (r1 != t3) != t4, t6, t5);
    Shift(t + 5, t5, t4, t3, t2, t1 != t5, (r0 != t4) != t5, ((r1 != t3) != t4) != t5, t6);
    Shift(t + 6, t6, t5, t4, t3, t2 != t6, (t1 != t5) != t6, ((r0 != t4) != t5) != t6, ((r1 != t3) != t4) != t5);
  }

  const I := true
  const O := false

  lemma FirstRegister()
    ensures RegisterAt(0) == R(I, O, O, O, O, O, O, O)
  {
  }

  /** Every entry is what the register gives, round after round. */
  lemma RoundValues()
    ensures forall ir :: 0 <= ir < 24 ==> ROUND_CONSTANTS[ir] == RoundValue(ir)
  {
    hide RegisterAt, RoundValue;
    FirstRegister();
    Advance(0, I, O, O, O, O, O, O, O);
    Advance(1, O, O, O, O, O, O, O, I);
    Advance(2, O, O, O, I, I, O, I, I);
    Advance(3, O, I, O, I, I, O, O, O);
    Advance(4, I, I, I, I, I, O, I, I);
    Advance(5, I, O, O, I, O, O, O, O);
    Advance(6, I, O, I, O, I, I, O, O);
    Advance(7, I, I, I, I, O, O, I, O);
    Advance(8, O, I, O, I, O, O, I, I);
    Advance(9, O, O, O, O, I, I, I, O);
    Advance(10, I, O, O, O, O, O, I, O);
    Advance(11, O, O, I, I, O, I, I, I);
    Advance(12, I, O, I, O, I, O, I, I);
    Advance(13, I, O, I, I, O, O, I, I);
    Advance(14, I, I, O, O, O, I, I, O);
    Advance(15, I, I, O, I, O, I, O, I);
    Advance(16, O, I, O, I, O, I, O, I);
    Advance(17, O, I, O, I, O, I, O, O);
    Advance(18, O, I, O, O, I, I, I, I);
    Advance(19, O, O, O, I, O, I, I, I);
    Advance(20, I, I, I, O, I, I, O, O);
    Advance(21, O, I, I, I, I, I, O, O);
    Advance(22, I, I, O, I, O, O, O, O);
    Advance(23, O, O, I, O, O, O, I, O);
  }

  lemma PlacesAreShifts()
    ensures Shl(1, 1) == 0x2 && Shl(1, 2) == 0x4 && Shl(1, 4) == 0x10
    ensures Shl(1, 8) == 0x100 && Shl(1, 16) == 0x10000 && Shl(1, 32) == 0x100000000
  {
    assert Shl(1, 8) == 0x100;
    assert Shl(1, 12) == 0x1000;
    assert Shl(1, 16) == 0x10000;
    assert Shl(1, 20) == 0x100000;
    assert Shl(1, 24) == 0x1000000;
    assert Shl(1, 28) == 0x10000000;
  }

  lemma {:induction false} ShlScales(a: int, s: nat)
    ensures Shl(a, s) == a * Shl(1, s)
  {
    if s > 0 {
      ShlScales(a, s - 1);
    }
  }

  lemma BitOfPlaced(b: bool, r: int, k: nat, i: nat)
    requires k > 0
    ensures Bit(Digit(b) + Shl(1, k) * r, i) == if i == 0 then b else k <= i && Bit(r, i - k)
  {
    hide Shl, Digit, Bit;
    ShlScales(r, k);
    DoubleShl(r, k - 1);
    HalfOfDouble(Shl(r, k - 1), b);
    BitStep(2 * Shl(r, k - 1) + Digit(b), i);
    if i > 0 {
      BitOfShl(r, k - 1, i - 1);
    }
  }

  lemma DoubleShl(a: int, k: nat)
    ensures Shl(a, k + 1) == 2 * Shl(a, k)
  {
  }

  lemma BitStep(a: int, i: nat)
    ensures Bit(a, i) == if i == 0 then a % 2 == 1 else Bit(a / 2, i - 1)
  {
  }

  /** Bit z of the tabulated round constant is RC[z] of the standard. */
  lemma RoundTable(ir: nat, z: nat)
    requires ir < 24 && z < 64
    ensures Bit(ROUND_CONSTANTS[ir], z) == RoundConstant(ir, z)
  {
    RoundValues();
    RoundValueBits(ir, z);
  }

  /** The bit of `Placed` at place z. */
  predicate PlacedBit(z: int, b0: bool, b1: bool, b2: bool, b3: bool, b4: bool, b5: bool, b6: bool) {
    match z
    case 0 => b0
    case 1 => b1
    case 3 => b2
    case 7 => b3
    case 15 => b4
    case 31 => b5
    case 63 => b6
    case _ => false
  }

  lemma BitOfPlacedAt(b: bool, r: int, k: nat, place: int, i: nat)
    requires k > 0 && Shl(1, k) == place
    ensures Bit(Digit(b) + place * r, i) == if i == 0 then b else k <= i && Bit(r, i - k)
  {
    hide Shl, Bit, Digit;
    BitOfPlaced(b, r, k, i);
  }

  /** The three highest bits, counted from the lowest of them. */
  lemma BitsOfTop(i: nat, b4: bool, b5: bool, b6: bool)
    requires i < 49
    ensures Bit(Digit(b4) + 0x10000 * (Digit(b5) + 0x100000000 * Digit(b6)), i) ==
            match i
            case 0 => b4
            case 16 => b5
            case 48 => b6
            case _ => false
  {
    hide Shl, Bit, Digit;
    PlacesAreShifts();
    BitOfPlacedAt(b4, Digit(b5) + 0x100000000 * Digit(b6), 16, 0x10000, i);
    if i >= 16 { BitOfPlacedAt(b5, Digit(b6), 32, 0x100000000, i - 16); }
    if i >= 48 { BitOfDigit(b6, i - 48); }
  }

  lemma BitsOfBottom(z: nat, b0: bool, b1: bool, b2: bool, b3: bool, r: int)
    requires z < 64
    ensures Bit(Digit(b0) + 0x2 * (Digit(b1) + 0x4 * (Digit(b2) + 0x10 * (Digit(b3) + 0x100 * r))), z) ==
            match z
            case 0 => b0
            case 1 => b1
            case 3 => b2
            case 7 => b3
            case _ => z >= 15 && Bit(r, z - 15)
  {
    hide Shl, Bit, Digit;
    PlacesAreShifts();
    var r3 := Digit(b3) + 0x100 * r;
    var r2 := Digit(b2) + 0x10 * r3;
    BitOfPlacedAt(b0, Digit(b1) + 0x4 * r2, 1, 0x2, z);
    if z >= 1 { BitOfPlacedAt(b1, r2, 2, 0x4, z - 1); }
    if z >= 3 { BitOfPlacedAt(b2, r3, 4, 0x10, z - 3); }
    if z >= 7 { BitOfPlacedAt(b3, r, 8, 0x100, z - 7); }
  }

  lemma BitsOfPlaced(z: nat, b0: bool, b1: bool, b2: bool, b3: bool, b4: bool, b5: bool, b6: bool)
    requires z < 64
    ensures Bit(Placed(b0, b1, b2, b3, b4, b5, b6), z) == PlacedBit(z, b0, b1, b2, b3, b4, b5, b6)
  {
    hide Bit, Digit;
    BitsOfBottom(z, b0, b1, b2, b3, Digit(b4) + 0x10000 * (Digit(b5) + 0x100000000 * Digit(b6)));
    if z >= 15 {
      BitsOfTop(z - 15, b4, b5, b6);
    }
  }

  lemma RoundValueBits(ir: nat, z: nat)
    requires z < 64
    ensures Bit(RoundValue(ir), z) == RoundConstant(ir, z)
  {
    hide RoundBit, Placed, Bit;
    var t := 7 * ir;
    BitsOfPlaced(z, RoundBit(t), RoundBit(t + 1), RoundBit(t + 2), RoundBit(t + 3), RoundBit(t + 4), RoundBit(t + 5),
                 RoundBit(t + 6));
  }

  lemma BitOfDigit(b: bool, i: nat)
    requires i == 0
    ensures Bit(Digit(b), i) == b
  {
  }

  /**
   The parameters of Keccak-256: 12 + 2 l rounds for lanes of 2^l bits (section 3.4), as many as
   there are round constants, and a capacity of twice the digest's 256 bits.
   */
  lemma Parameters(s: State, l: nat)
    requires 25 * Shl(1, l) == WIDTH
    ensures KeccakF(s) == Rounds(s, 12 + 2 * l) == Rounds(s, |ROUND_CONSTANTS|)
    ensures WIDTH - RATE == 2 * 256
  {
    hide Rounds;
    Sizes();
    LaneWidth(l);
  }

  lemma LaneWidth(l: nat)
    requires Shl(1, l) == 64
    ensures l == 6
  {
    assert Shl(1, 6) == 64 by {
      assert Shl(1, 3) == 8;
    }
    if l < 6 {
      ShlGrows(l, 6);
    } else if l > 6 {
      ShlGrows(6, l);
    }
  }

  lemma {:induction false} ShlGrows(k: nat, l: nat)
    requires k < l
    ensures 0 < Shl(1, k) < Shl(1, l)
    decreases l
  {
    ShlPositive(k);
    if k < l - 1 {
      ShlGrows(k, l - 1);
    }
  }

  lemma {:induction false} ShlPositive(k: nat)
    ensures Shl(1, k) > 0
  {
    if k > 0 {
      ShlPositive(k - 1);
    }
  }
}
