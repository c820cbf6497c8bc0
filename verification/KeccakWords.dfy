/**
 Keccak-f on twenty-five 64-bit words, in a form that can be evaluated: each step mapping of
 FIPS 202 on the bits is the one here on the words.
 */
module KeccakWords {
  import opened PyInts
  import opened Fips202
  import opened KeccakTables
  import KeccakBijection
  import KeccakLanes
  import opened Words64

  /** Lane x + 5 y in field a(x + 5 y). */
  datatype Words = Words(
    a0: Word, a1: Word, a2: Word, a3: Word, a4: Word,
    a5: Word, a6: Word, a7: Word, a8: Word, a9: Word,
    a10: Word, a11: Word, a12: Word, a13: Word, a14: Word,
    a15: Word, a16: Word, a17: Word, a18: Word, a19: Word,
    a20: Word, a21: Word, a22: Word, a23: Word, a24: Word)

  /** Lane (x, y) of the state has the bits of the word. */
  ghost predicate LaneIs(s: State, x: int, y: int, w: Word) {
    forall z: nat :: z < 64 ==> At(s, x, y, z) == WordBit(w, z)
  }

  ghost predicate Holds(s: State, w: Words) {
    LaneIs(s, 0, 0, w.a0) && LaneIs(s, 1, 0, w.a1) && LaneIs(s, 2, 0, w.a2) && LaneIs(s, 3, 0, w.a3) && LaneIs(s, 4, 0, w.a4) &&
    LaneIs(s, 0, 1, w.a5) && LaneIs(s, 1, 1, w.a6) && LaneIs(s, 2, 1, w.a7) && LaneIs(s, 3, 1, w.a8) && LaneIs(s, 4, 1, w.a9) &&
    LaneIs(s, 0, 2, w.a10) && LaneIs(s, 1, 2, w.a11) && LaneIs(s, 2, 2, w.a12) && LaneIs(s, 3, 2, w.a13) && LaneIs(s, 4, 2, w.a14) &&
    LaneIs(s, 0, 3, w.a15) && LaneIs(s, 1, 3, w.a16) && LaneIs(s, 2, 3, w.a17) && LaneIs(s, 3, 3, w.a18) && LaneIs(s, 4, 3, w.a19) &&
    LaneIs(s, 0, 4, w.a20) && LaneIs(s, 1, 4, w.a21) && LaneIs(s, 2, 4, w.a22) && LaneIs(s, 3, 4, w.a23) && LaneIs(s, 4, 4, w.a24)
  }

  // ----- theta

  datatype Columns = Columns(c0: Word, c1: Word, c2: Word, c3: Word, c4: Word)

  ghost predicate ColumnIs(s: State, x: int, c: Word) {
    forall z: nat :: z < 64 ==> ColumnParity(s, x, z) == WordBit(c, z)
  }

  /** a ^ b ^ c */
  function Xor3(a: Word, b: Word, c: Word): Word {
    a ^ b ^ c
  }

  /** The parities of the columns. */
  function ColumnWords(w: Words): Columns {
    Columns(Xor3(Xor3(w.a0, w.a5, w.a10), w.a15, w.a20),
            Xor3(Xor3(w.a1, w.a6, w.a11), w.a16, w.a21),
            Xor3(Xor3(w.a2, w.a7, w.a12), w.a17, w.a22),
            Xor3(Xor3(w.a3, w.a8, w.a13), w.a18, w.a23),
            Xor3(Xor3(w.a4, w.a9, w.a14), w.a19, w.a24))
  }

  function TurnedColumns(c: Columns): Columns {
    Columns(Rot1(c.c0), Rot1(c.c1), Rot1(c.c2), Rot1(c.c3), Rot1(c.c4))
  }

  function ThetaWords(w: Words, c: Columns, t: Columns): Words {
    Words(
      Xor3(w.a0, c.c4, t.c1), Xor3(w.a1, c.c0, t.c2), Xor3(w.a2, c.c1, t.c3),
      Xor3(w.a3, c.c2, t.c4), Xor3(w.a4, c.c3, t.c0), Xor3(w.a5, c.c4, t.c1),
      Xor3(w.a6, c.c0, t.c2), Xor3(w.a7, c.c1, t.c3), Xor3(w.a8, c.c2, t.c4),
      Xor3(w.a9, c.c3, t.c0), Xor3(w.a10, c.c4, t.c1), Xor3(w.a11, c.c0, t.c2),
      Xor3(w.a12, c.c1, t.c3), Xor3(w.a13, c.c2, t.c4), Xor3(w.a14, c.c3, t.c0),
      Xor3(w.a15, c.c4, t.c1), Xor3(w.a16, c.c0, t.c2), Xor3(w.a17, c.c1, t.c3),
      Xor3(w.a18, c.c2, t.c4), Xor3(w.a19, c.c3, t.c0), Xor3(w.a20, c.c4, t.c1),
      Xor3(w.a21, c.c0, t.c2), Xor3(w.a22, c.c1, t.c3), Xor3(w.a23, c.c2, t.c4),
      Xor3(w.a24, c.c3, t.c0))
  }

  lemma HalfOfXor3(a: Word, b: Word, c: Word)
    ensures Half(Xor3(a, b, c)) == Xor3(Half(a), Half(b), Half(c))
  {
  }

  lemma LowOfXor3(a: Word, b: Word, c: Word)
    ensures Low(Xor3(a, b, c)) == (Low(a) != (Low(b) != Low(c)))
  {
  }

  lemma {:induction false} BitOfXor3(a: Word, b: Word, c: Word, z: nat)
    ensures WordBit(Xor3(a, b, c), z) == (WordBit(a, z) != (WordBit(b, z) != WordBit(c, z)))
    decreases z
  {
    hide Xor3, Half, Low;
    if z == 0 {
      LowOfXor3(a, b, c);
    } else {
      HalfOfXor3(a, b, c);
      BitOfXor3(Half(a), Half(b), Half(c), z - 1);
    }
  }

  lemma ColumnParities(s: State, x: int, a: Word, b: Word, c: Word, d: Word, e: Word)
    requires 0 <= x < 5
    requires LaneIs(s, x, 0, a) && LaneIs(s, x, 1, b) && LaneIs(s, x, 2, c) && LaneIs(s, x, 3, d) && LaneIs(s, x, 4, e)
    ensures ColumnIs(s, x, Xor3(Xor3(a, b, c), d, e))
  {
    hide WordBit, Xor3, At;
    forall z: nat | z < 64
      ensures ColumnParity(s, x, z) == WordBit(Xor3(Xor3(a, b, c), d, e), z)
    {
      BitOfXor3(a, b, c, z);
      BitOfXor3(Xor3(a, b, c), d, e, z);
    }
  }

  lemma ThetaLane(s: State, x: int, y: int, a: Word, left: Word, right: Word)
    requires 0 <= x < 5 && 0 <= y < 5 && LaneIs(s, x, y, a)
    requires ColumnIs(s, (x + 4) % 5, left) && ColumnIs(s, (x + 1) % 5, right)
    ensures LaneIs(Theta(s), x, y, Xor3(a, left, Rot1(right)))
  {
    hide WordBit, Xor3, At, Rot1, Theta, ColumnParity;
    forall z: nat | z < 64
      ensures At(Theta(s), x, y, z) == WordBit(Xor3(a, left, Rot1(right)), z)
    {
      ThetaBit(s, x, y, z);
      BitOfXor3(a, left, Rot1(right), z);
      BitOfRot1(right, z);
      assert (z - 1) % 64 == if z == 0 then 63 else z - 1;
    }
  }

  lemma ThetaBit(s: State, x: int, y: int, z: int)
    requires 0 <= x < 5 && 0 <= y < 5 && 0 <= z < 64
    ensures At(Theta(s), x, y, z) ==
            (At(s, x, y, z) != (ColumnParity(s, (x + 4) % 5, z) != ColumnParity(s, (x + 1) % 5, (z - 1) % 64)))
  {
    hide At, ColumnParity, PlaneAt, AddEffect, TabulatePlane;
    KeccakBijection.AddEffectAt(s, Parities(s), x, y, z);
    TabulatePlaneAt((x, z) => ColumnParity(s, x, z), x - 1, z);
    TabulatePlaneAt((x, z) => ColumnParity(s, x, z), x + 1, z - 1);
    assert (x - 1) % 5 == (x + 4) % 5 && z % 64 == z;
  }

  ghost predicate ColumnsHold(s: State, c: Columns) {
    ColumnIs(s, 0, c.c0) && ColumnIs(s, 1, c.c1) && ColumnIs(s, 2, c.c2) && ColumnIs(s, 3, c.c3) && ColumnIs(s, 4, c.c4)
  }

  lemma ParitiesHold(s: State, w: Words)
    requires Holds(s, w)
    ensures ColumnsHold(s, ColumnWords(w))
  {
    hide LaneIs, ColumnIs, Xor3;
    ColumnParities(s, 0, w.a0, w.a5, w.a10, w.a15, w.a20);
    ColumnParities(s, 1, w.a1, w.a6, w.a11, w.a16, w.a21);
    ColumnParities(s, 2, w.a2, w.a7, w.a12, w.a17, w.a22);
    ColumnParities(s, 3, w.a3, w.a8, w.a13, w.a18, w.a23);
    ColumnParities(s, 4, w.a4, w.a9, w.a14, w.a19, w.a24);
  }

  lemma ThetaHolds(s: State, w: Words, c: Columns)
    requires Holds(s, w) && ColumnsHold(s, c)
    ensures Holds(Theta(s), ThetaWords(w, c, TurnedColumns(c)))
  {
    hide LaneIs, ColumnIs, Xor3, Rot1, Theta;
    ThetaLane(s, 0, 0, w.a0, c.c4, c.c1);
    ThetaLane(s, 1, 0, w.a1, c.c0, c.c2);
    ThetaLane(s, 2, 0, w.a2, c.c1, c.c3);
    ThetaLane(s, 3, 0, w.a3, c.c2, c.c4);
    ThetaLane(s, 4, 0, w.a4, c.c3, c.c0);
    ThetaLane(s, 0, 1, w.a5, c.c4, c.c1);
    ThetaLane(s, 1, 1, w.a6, c.c0, c.c2);
    ThetaLane(s, 2, 1, w.a7, c.c1, c.c3);
    ThetaLane(s, 3, 1, w.a8, c.c2, c.c4);
    ThetaLane(s, 4, 1, w.a9, c.c3, c.c0);
    ThetaLane(s, 0, 2, w.a10, c.c4, c.c1);
    ThetaLane(s, 1, 2, w.a11, c.c0, c.c2);
    ThetaLane(s, 2, 2, w.a12, c.c1, c.c3);
    ThetaLane(s, 3, 2, w.a13, c.c2, c.c4);
    ThetaLane(s, 4, 2, w.a14, c.c3, c.c0);
    ThetaLane(s, 0, 3, w.a15, c.c4, c.c1);
    ThetaLane(s, 1, 3, w.a16, c.c0, c.c2);
    ThetaLane(s, 2, 3, w.a17, c.c1, c.c3);
    ThetaLane(s, 3, 3, w.a18, c.c2, c.c4);
    ThetaLane(s, 4, 3, w.a19, c.c3, c.c0);
    ThetaLane(s, 0, 4, w.a20, c.c4, c.c1);
    ThetaLane(s, 1, 4, w.a21, c.c0, c.c2);
    ThetaLane(s, 2, 4, w.a22, c.c1, c.c3);
    ThetaLane(s, 3, 4, w.a23, c.c2, c.c4);
    ThetaLane(s, 4, 4, w.a24, c.c3, c.c0);
  }

  // ----- rho and pi

  function Rotate0(w: Word): Word {
    w
  }

  lemma Rotates0(w: Word)
    ensures Rotate0(w) == Turn(w, 0)
  {
  }

  function Rotate1(w: Word): Word {
    (w << 1) | (w >> 63)
  }

  lemma Rotates1(w: Word)
    ensures Rotate1(w) == Turn(w, 1)
  {
  }

  function Rotate2(w: Word): Word {
    (w << 2) | (w >> 62)
  }

  lemma Rotates2(w: Word)
    ensures Rotate2(w) == Turn(w, 2)
  {
  }

  function Rotate3(w: Word): Word {
    (w << 3) | (w >> 61)
  }

  lemma Rotates3(w: Word)
    ensures Rotate3(w) == Turn(w, 3)
  {
  }

  function Rotate6(w: Word): Word {
    (w << 6) | (w >> 58)
  }

  lemma Rotates6(w: Word)
    ensures Rotate6(w) == Turn(w, 6)
  {
  }

  function Rotate8(w: Word): Word {
    (w << 8) | (w >> 56)
  }

  lemma Rotates8(w: Word)
    ensures Rotate8(w) == Turn(w, 8)
  {
  }

  function Rotate10(w: Word): Word {
    (w << 10) | (w >> 54)
  }

  lemma Rotates10(w: Word)
    ensures Rotate10(w) == Turn(w, 10)
  {
  }

  function Rotate14(w: Word): Word {
    (w << 14) | (w >> 50)
  }

  lemma Rotates14(w: Word)
    ensures Rotate14(w) == Turn(w, 14)
  {
  }

  function Rotate15(w: Word): Word {
    (w << 15) | (w >> 49)
  }

  lemma Rotates15(w: Word)
    ensures Rotate15(w) == Turn(w, 15)
  {
  }

  function Rotate18(w: Word): Word {
    (w << 18) | (w >> 46)
  }

  lemma Rotates18(w: Word)
    ensures Rotate18(w) == Turn(w, 18)
  {
  }

  function Rotate20(w: Word): Word {
    (w << 20) | (w >> 44)
  }

  lemma Rotates20(w: Word)
    ensures Rotate20(w) == Turn(w, 20)
  {
  }

  function Rotate21(w: Word): Word {
    (w << 21) | (w >> 43)
  }

  lemma Rotates21(w: Word)
    ensures Rotate21(w) == Turn(w, 21)
  {
  }

  function Rotate25(w: Word): Word {
    (w << 25) | (w >> 39)
  }

  lemma Rotates25(w: Word)
    ensures Rotate25(w) == Turn(w, 25)
  {
  }

  function Rotate27(w: Word): Word {
    (w << 27) | (w >> 37)
  }

  lemma Rotates27(w: Word)
    ensures Rotate27(w) == Turn(w, 27)
  {
  }

  function Rotate28(w: Word): Word {
    (w << 28) | (w >> 36)
  }

  lemma Rotates28(w: Word)
    ensures Rotate28(w) == Turn(w, 28)
  {
  }

  function Rotate36(w: Word): Word {
    (w << 36) | (w >> 28)
  }

  lemma Rotates36(w: Word)
    ensures Rotate36(w) == Turn(w, 36)
  {
  }

  function Rotate39(w: Word): Word {
    (w << 39) | (w >> 25)
  }

  lemma Rotates39(w: Word)
    ensures Rotate39(w) == Turn(w, 39)
  {
  }

  function Rotate41(w: Word): Word {
    (w << 41) | (w >> 23)
  }

  lemma Rotates41(w: Word)
    ensures Rotate41(w) == Turn(w, 41)
  {
  }

  function Rotate43(w: Word): Word {
    (w << 43) | (w >> 21)
  }

  lemma Rotates43(w: Word)
    ensures Rotate43(w) == Turn(w, 43)
  {
  }

  function Rotate44(w: Word): Word {
    (w << 44) | (w >> 20)
  }

  lemma Rotates44(w: Word)
    ensures Rotate44(w) == Turn(w, 44)
  {
  }

  function Rotate45(w: Word): Word {
    (w << 45) | (w >> 19)
  }

  lemma Rotates45(w: Word)
    ensures Rotate45(w) == Turn(w, 45)
  {
  }

  function Rotate55(w: Word): Word {
    (w << 55) | (w >> 9)
  }

  lemma Rotates55(w: Word)
    ensures Rotate55(w) == Turn(w, 55)
  {
  }

  function Rotate56(w: Word): Word {
    (w << 56) | (w >> 8)
  }

  lemma Rotates56(w: Word)
    ensures Rotate56(w) == Turn(w, 56)
  {
  }

  function Rotate61(w: Word): Word {
    (w << 61) | (w >> 3)
  }

  lemma Rotates61(w: Word)
    ensures Rotate61(w) == Turn(w, 61)
  {
  }

  function Rotate62(w: Word): Word {
    (w << 62) | (w >> 2)
  }

  lemma Rotates62(w: Word)
    ensures Rotate62(w) == Turn(w, 62)
  {
  }

  function RhoPiWords(w: Words): Words {
    Words(
      Rotate0(w.a0), Rotate44(w.a6), Rotate43(w.a12), Rotate21(w.a18), Rotate14(w.a24),
      Rotate28(w.a3), Rotate20(w.a9), Rotate3(w.a10), Rotate45(w.a16), Rotate61(w.a22),
      Rotate1(w.a1), Rotate6(w.a7), Rotate25(w.a13), Rotate8(w.a19), Rotate18(w.a20),
      Rotate27(w.a4), Rotate36(w.a5), Rotate10(w.a11), Rotate15(w.a17), Rotate56(w.a23),
      Rotate62(w.a2), Rotate55(w.a8), Rotate39(w.a14), Rotate41(w.a15), Rotate2(w.a21))
  }

  lemma RhoPiLane(s: State, x: int, y: int, a: Word, r: nat)
    requires 0 <= x < 5 && 0 <= y < 5 && LaneIs(s, (x + 3 * y) % 5, x, a)
    requires r == ROTATION_OFFSETS[(x + 3 * y) % 5 + 5 * x] < 64
    ensures LaneIs(Pi(Rho(s)), x, y, Turn(a, r))
  {
    hide WordBit, At, Turn, Rho, Pi, RotBy, ROTATION_OFFSETS, RhoOffset;
    RotationTable((x + 3 * y) % 5, x);
    TurnIsRotBy(a, r);
    forall z: nat | z < 64
      ensures At(Pi(Rho(s)), x, y, z) == WordBit(Turn(a, r), z)
    {
      KeccakLanes.PiOfRho(s, x, y, z, r);
      BitOfRotBy(a, r, z);
    }
  }

  lemma RhoPiLane0(s: State, a: Word)
    requires LaneIs(s, 0, 0, a)
    ensures LaneIs(Pi(Rho(s)), 0, 0, Rotate0(a))
  {
    hide LaneIs, Turn, Rho, Pi, Rotate0;
    Rotates0(a);
    RhoPiLane(s, 0, 0, a, 0);
  }

  lemma RhoPiLane1(s: State, a: Word)
    requires LaneIs(s, 1, 1, a)
    ensures LaneIs(Pi(Rho(s)), 1, 0, Rotate44(a))
  {
    hide LaneIs, Turn, Rho, Pi, Rotate44;
    Rotates44(a);
    RhoPiLane(s, 1, 0, a, 44);
  }

  lemma RhoPiLane2(s: State, a: Word)
    requires LaneIs(s, 2, 2, a)
    ensures LaneIs(Pi(Rho(s)), 2, 0, Rotate43(a))
  {
    hide LaneIs, Turn, Rho, Pi, Rotate43;
    Rotates43(a);
    RhoPiLane(s, 2, 0, a, 43);
  }

  lemma RhoPiLane3(s: State, a: Word)
    requires LaneIs(s, 3, 3, a)
    ensures LaneIs(Pi(Rho(s)), 3, 0, Rotate21(a))
  {
    hide LaneIs, Turn, Rho, Pi, Rotate21;
    Rotates21(a);
    RhoPiLane(s, 3, 0, a, 21);
  }

  lemma RhoPiLane4(s: State, a: Word)
    requires LaneIs(s, 4, 4, a)
    ensures LaneIs(Pi(Rho(s)), 4, 0, Rotate14(a))
  {
    hide LaneIs, Turn, Rho, Pi, Rotate14;
    Rotates14(a);
    RhoPiLane(s, 4, 0, a, 14);
  }

  lemma RhoPiLane5(s: State, a: Word)
    requires LaneIs(s, 3, 0, a)
    ensures LaneIs(Pi(Rho(s)), 0, 1, Rotate28(a))
  {
    hide LaneIs, Turn, Rho, Pi, Rotate28;
    Rotates28(a);
    RhoPiLane(s, 0, 1, a, 28);
  }

  lemma RhoPiLane6(s: State, a: Word)
    requires LaneIs(s, 4, 1, a)
    ensures LaneIs(Pi(Rho(s)), 1, 1, Rotate20(a))
  {
    hide LaneIs, Turn, Rho, Pi, Rotate20;
    Rotates20(a);
    RhoPiLane(s, 1, 1, a, 20);
  }

  lemma RhoPiLane7(s: State, a: Word)
    requires LaneIs(s, 0, 2, a)
    ensures LaneIs(Pi(Rho(s)), 2, 1, Rotate3(a))
  {
    hide LaneIs, Turn, Rho, Pi, Rotate3;
    Rotates3(a);
    RhoPiLane(s, 2, 1, a, 3);
  }

  lemma RhoPiLane8(s: State, a: Word)
    requires LaneIs(s, 1, 3, a)
    ensures LaneIs(Pi(Rho(s)), 3, 1, Rotate45(a))
  {
    hide LaneIs, Turn, Rho, Pi, Rotate45;
    Rotates45(a);
    RhoPiLane(s, 3, 1, a, 45);
  }

  lemma RhoPiLane9(s: State, a: Word)
    requires LaneIs(s, 2, 4, a)
    ensures LaneIs(Pi(Rho(s)), 4, 1, Rotate61(a))
  {
    hide LaneIs, Turn, Rho, Pi, Rotate61;
    Rotates61(a);
    RhoPiLane(s, 4, 1, a, 61);
  }

  lemma RhoPiLane10(s: State, a: Word)
    requires LaneIs(s, 1, 0, a)
    ensures LaneIs(Pi(Rho(s)), 0, 2, Rotate1(a))
  {
    hide LaneIs, Turn, Rho, Pi, Rotate1;
    Rotates1(a);
    RhoPiLane(s, 0, 2, a, 1);
  }

  lemma RhoPiLane11(s: State, a: Word)
    requires LaneIs(s, 2, 1, a)
    ensures LaneIs(Pi(Rho(s)), 1, 2, Rotate6(a))
  {
    hide LaneIs, Turn, Rho, Pi, Rotate6;
    Rotates6(a);
    RhoPiLane(s, 1, 2, a, 6);
  }

  lemma RhoPiLane12(s: State, a: Word)
    requires LaneIs(s, 3, 2, a)
    ensures LaneIs(Pi(Rho(s)), 2, 2, Rotate25(a))
  {
    hide LaneIs, Turn, Rho, Pi, Rotate25;
    Rotates25(a);
    RhoPiLane(s, 2, 2, a, 25);
  }

  lemma RhoPiLane13(s: State, a: Word)
    requires LaneIs(s, 4, 3, a)
    ensures LaneIs(Pi(Rho(s)), 3, 2, Rotate8(a))
  {
    hide LaneIs, Turn, Rho, Pi, Rotate8;
    Rotates8(a);
    RhoPiLane(s, 3, 2, a, 8);
  }

  lemma RhoPiLane14(s: State, a: Word)
    requires LaneIs(s, 0, 4, a)
    ensures LaneIs(Pi(Rho(s)), 4, 2, Rotate18(a))
  {
    hide LaneIs, Turn, Rho, Pi, Rotate18;
    Rotates18(a);
    RhoPiLane(s, 4, 2, a, 18);
  }

  lemma RhoPiLane15(s: State, a: Word)
    requires LaneIs(s, 4, 0, a)
    ensures LaneIs(Pi(Rho(s)), 0, 3, Rotate27(a))
  {
    hide LaneIs, Turn, Rho, Pi, Rotate27;
    Rotates27(a);
    RhoPiLane(s, 0, 3, a, 27);
  }

  lemma RhoPiLane16(s: State, a: Word)
    requires LaneIs(s, 0, 1, a)
    ensures LaneIs(Pi(Rho(s)), 1, 3, Rotate36(a))
  {
    hide LaneIs, Turn, Rho, Pi, Rotate36;
    Rotates36(a);
    RhoPiLane(s, 1, 3, a, 36);
  }

  lemma RhoPiLane17(s: State, a: Word)
    requires LaneIs(s, 1, 2, a)
    ensures LaneIs(Pi(Rho(s)), 2, 3, Rotate10(a))
  {
    hide LaneIs, Turn, Rho, Pi, Rotate10;
    Rotates10(a);
    RhoPiLane(s, 2, 3, a, 10);
  }

  lemma RhoPiLane18(s: State, a: Word)
    requires LaneIs(s, 2, 3, a)
    ensures LaneIs(Pi(Rho(s)), 3, 3, Rotate15(a))
  {
    hide LaneIs, Turn, Rho, Pi, Rotate15;
    Rotates15(a);
    RhoPiLane(s, 3, 3, a, 15);
  }

  lemma RhoPiLane19(s: State, a: Word)
    requires LaneIs(s, 3, 4, a)
    ensures LaneIs(Pi(Rho(s)), 4, 3, Rotate56(a))
  {
    hide LaneIs, Turn, Rho, Pi, Rotate56;
    Rotates56(a);
    RhoPiLane(s, 4, 3, a, 56);
  }

  lemma RhoPiLane20(s: State, a: Word)
    requires LaneIs(s, 2, 0, a)
    ensures LaneIs(Pi(Rho(s)), 0, 4, Rotate62(a))
  {
    hide LaneIs, Turn, Rho, Pi, Rotate62;
    Rotates62(a);
    RhoPiLane(s, 0, 4, a, 62);
  }

  lemma RhoPiLane21(s: State, a: Word)
    requires LaneIs(s, 3, 1, a)
    ensures LaneIs(Pi(Rho(s)), 1, 4, Rotate55(a))
  {
    hide LaneIs, Turn, Rho, Pi, Rotate55;
    Rotates55(a);
    RhoPiLane(s, 1, 4, a, 55);
  }

  lemma RhoPiLane22(s: State, a: Word)
    requires LaneIs(s, 4, 2, a)
    ensures LaneIs(Pi(Rho(s)), 2, 4, Rotate39(a))
  {
    hide LaneIs, Turn, Rho, Pi, Rotate39;
    Rotates39(a);
    RhoPiLane(s, 2, 4, a, 39);
  }

  lemma RhoPiLane23(s: State, a: Word)
    requires LaneIs(s, 0, 3, a)
    ensures LaneIs(Pi(Rho(s)), 3, 4, Rotate41(a))
  {
    hide LaneIs, Turn, Rho, Pi, Rotate41;
    Rotates41(a);
    RhoPiLane(s, 3, 4, a, 41);
  }

  lemma RhoPiLane24(s: State, a: Word)
    requires LaneIs(s, 1, 4, a)
    ensures LaneIs(Pi(Rho(s)), 4, 4, Rotate2(a))
  {
    hide LaneIs, Turn, Rho, Pi, Rotate2;
    Rotates2(a);
    RhoPiLane(s, 4, 4, a, 2);
  }

  lemma RhoPiHolds(s: State, w: Words)
    requires Holds(s, w)
    ensures Holds(Pi(Rho(s)), RhoPiWords(w))
  {
    hide LaneIs, Rho, Pi, Rotate0, Rotate1, Rotate2, Rotate3, Rotate6, Rotate8, Rotate10, Rotate14, Rotate15, Rotate18, Rotate20, Rotate21,
      Rotate25, Rotate27, Rotate28, Rotate36, Rotate39, Rotate41, Rotate43, Rotate44, Rotate45, Rotate55, Rotate56, Rotate61, Rotate62;
    RhoPiLane0(s, w.a0);
    RhoPiLane1(s, w.a6);
    RhoPiLane2(s, w.a12);
    RhoPiLane3(s, w.a18);
    RhoPiLane4(s, w.a24);
    RhoPiLane5(s, w.a3);
    RhoPiLane6(s, w.a9);
    RhoPiLane7(s, w.a10);
    RhoPiLane8(s, w.a16);
    RhoPiLane9(s, w.a22);
    RhoPiLane10(s, w.a1);
    RhoPiLane11(s, w.a7);
    RhoPiLane12(s, w.a13);
    RhoPiLane13(s, w.a19);
    RhoPiLane14(s, w.a20);
    RhoPiLane15(s, w.a4);
    RhoPiLane16(s, w.a5);
    RhoPiLane17(s, w.a11);
    RhoPiLane18(s, w.a17);
    RhoPiLane19(s, w.a23);
    RhoPiLane20(s, w.a2);
    RhoPiLane21(s, w.a8);
    RhoPiLane22(s, w.a14);
    RhoPiLane23(s, w.a15);
    RhoPiLane24(s, w.a21);
  }

  // ----- chi

  function ChiWord(a: Word, b: Word, c: Word): Word {
    a ^ (!b & c)
  }

  function ChiWords(w: Words): Words {
    Words(
      ChiWord(w.a0, w.a1, w.a2), ChiWord(w.a1, w.a2, w.a3), ChiWord(w.a2, w.a3, w.a4),
      ChiWord(w.a3, w.a4, w.a0), ChiWord(w.a4, w.a0, w.a1), ChiWord(w.a5, w.a6, w.a7),
      ChiWord(w.a6, w.a7, w.a8), ChiWord(w.a7, w.a8, w.a9), ChiWord(w.a8, w.a9, w.a5),
      ChiWord(w.a9, w.a5, w.a6), ChiWord(w.a10, w.a11, w.a12), ChiWord(w.a11, w.a12, w.a13),
      ChiWord(w.a12, w.a13, w.a14), ChiWord(w.a13, w.a14, w.a10), ChiWord(w.a14, w.a10, w.a11),
      ChiWord(w.a15, w.a16, w.a17), ChiWord(w.a16, w.a17, w.a18), ChiWord(w.a17, w.a18, w.a19),
      ChiWord(w.a18, w.a19, w.a15), ChiWord(w.a19, w.a15, w.a16), ChiWord(w.a20, w.a21, w.a22),
      ChiWord(w.a21, w.a22, w.a23), ChiWord(w.a22, w.a23, w.a24), ChiWord(w.a23, w.a24, w.a20),
      ChiWord(w.a24, w.a20, w.a21))
  }

  lemma HalfOfChi(a: Word, b: Word, c: Word)
    ensures Half(ChiWord(a, b, c)) == ChiWord(Half(a), Half(b), Half(c))
  {
  }

  lemma LowOfChi(a: Word, b: Word, c: Word)
    ensures Low(ChiWord(a, b, c)) == (Low(a) != (!Low(b) && Low(c)))
  {
  }

  lemma {:induction false} BitOfChi(a: Word, b: Word, c: Word, z: nat)
    ensures WordBit(ChiWord(a, b, c), z) == (WordBit(a, z) != (!WordBit(b, z) && WordBit(c, z)))
    decreases z
  {
    hide ChiWord, Half, Low;
    if z == 0 {
      LowOfChi(a, b, c);
    } else {
      HalfOfChi(a, b, c);
      BitOfChi(Half(a), Half(b), Half(c), z - 1);
    }
  }

  lemma ChiLane(s: State, x: int, y: int, a: Word, b: Word, c: Word)
    requires 0 <= x < 5 && 0 <= y < 5
    requires LaneIs(s, x, y, a) && LaneIs(s, (x + 1) % 5, y, b) && LaneIs(s, (x + 2) % 5, y, c)
    ensures LaneIs(Chi(s), x, y, ChiWord(a, b, c))
  {
    hide WordBit, At, Chi, ChiWord;
    forall z: nat | z < 64
      ensures At(Chi(s), x, y, z) == WordBit(ChiWord(a, b, c), z)
    {
      KeccakLanes.ChiStateBit(s, x, y, z);
      BitOfChi(a, b, c, z);
    }
  }

  lemma ChiHolds(s: State, w: Words)
    requires Holds(s, w)
    ensures Holds(Chi(s), ChiWords(w))
  {
    hide LaneIs, ChiWord, Chi;
    ChiLane(s, 0, 0, w.a0, w.a1, w.a2);
    ChiLane(s, 1, 0, w.a1, w.a2, w.a3);
    ChiLane(s, 2, 0, w.a2, w.a3, w.a4);
    ChiLane(s, 3, 0, w.a3, w.a4, w.a0);
    ChiLane(s, 4, 0, w.a4, w.a0, w.a1);
    ChiLane(s, 0, 1, w.a5, w.a6, w.a7);
    ChiLane(s, 1, 1, w.a6, w.a7, w.a8);
    ChiLane(s, 2, 1, w.a7, w.a8, w.a9);
    ChiLane(s, 3, 1, w.a8, w.a9, w.a5);
    ChiLane(s, 4, 1, w.a9, w.a5, w.a6);
    ChiLane(s, 0, 2, w.a10, w.a11, w.a12);
    ChiLane(s, 1, 2, w.a11, w.a12, w.a13);
    ChiLane(s, 2, 2, w.a12, w.a13, w.a14);
    ChiLane(s, 3, 2, w.a13, w.a14, w.a10);
    ChiLane(s, 4, 2, w.a14, w.a10, w.a11);
    ChiLane(s, 0, 3, w.a15, w.a16, w.a17);
    ChiLane(s, 1, 3, w.a16, w.a17, w.a18);
    ChiLane(s, 2, 3, w.a17, w.a18, w.a19);
    ChiLane(s, 3, 3, w.a18, w.a19, w.a15);
    ChiLane(s, 4, 3, w.a19, w.a15, w.a16);
    ChiLane(s, 0, 4, w.a20, w.a21, w.a22);
    ChiLane(s, 1, 4, w.a21, w.a22, w.a23);
    ChiLane(s, 2, 4, w.a22, w.a23, w.a24);
    ChiLane(s, 3, 4, w.a23, w.a24, w.a20);
    ChiLane(s, 4, 4, w.a24, w.a20, w.a21);
  }

  // ----- iota

  ghost predicate RoundConstantIs(ir: nat, rc: Word) {
    forall z: nat :: z < 64 ==> RoundConstant(ir, z) == WordBit(rc, z)
  }

  /** The table's constant, from its seven bits. */
  lemma RoundConstantWord(ir: nat, b0: bool, b1: bool, b2: bool, b3: bool, b4: bool, b5: bool, b6: bool)
    requires ir < 24 && ROUND_CONSTANTS[ir] == Placed(b0, b1, b2, b3, b4, b5, b6)
    ensures RoundConstantIs(ir, PlacedWord(b0, b1, b2, b3, b4, b5, b6))
  {
    hide Bit, WordBit, Placed, PlacedWord, RoundConstant, ROUND_CONSTANTS;
    forall z: nat | z < 64
      ensures RoundConstant(ir, z) == WordBit(PlacedWord(b0, b1, b2, b3, b4, b5, b6), z)
    {
      RoundTable(ir, z);
      BitsOfPlaced(z, b0, b1, b2, b3, b4, b5, b6);
      BitOfPlacedWord(z, b0, b1, b2, b3, b4, b5, b6);
    }
  }

  lemma IotaBit(s: State, ir: nat, x: int, y: int, z: int)
    requires 0 <= x < 5 && 0 <= y < 5 && 0 <= z < 64
    ensures At(Iota(s, ir), x, y, z) == (At(s, x, y, z) != (x == 0 && y == 0 && RoundConstant(ir, z)))
  {
    hide At, RoundConstant;
    TabulateAt((x, y, z) => At(s, x, y, z) != (x == 0 && y == 0 && RoundConstant(ir, z)), x, y, z);
  }

  lemma IotaFirstLane(s: State, ir: nat, a: Word, rc: Word)
    requires LaneIs(s, 0, 0, a) && RoundConstantIs(ir, rc)
    ensures LaneIs(Iota(s, ir), 0, 0, XorWord(a, rc))
  {
    hide WordBit, At, Iota, XorWord, RoundConstant;
    forall z: nat | z < 64
      ensures At(Iota(s, ir), 0, 0, z) == WordBit(XorWord(a, rc), z)
    {
      IotaBit(s, ir, 0, 0, z);
      BitOfXorWord(a, rc, z);
    }
  }

  lemma IotaOtherLane(s: State, ir: nat, x: int, y: int, a: Word)
    requires 0 <= x < 5 && 0 <= y < 5 && (x != 0 || y != 0) && LaneIs(s, x, y, a)
    ensures LaneIs(Iota(s, ir), x, y, a)
  {
    hide WordBit, At, Iota, RoundConstant;
    forall z: nat | z < 64
      ensures At(Iota(s, ir), x, y, z) == WordBit(a, z)
    {
      IotaBit(s, ir, x, y, z);
    }
  }

  function IotaWords(w: Words, rc: Word): Words {
    w.(a0 := XorWord(w.a0, rc))
  }

  lemma IotaHolds(s: State, ir: nat, w: Words, rc: Word)
    requires Holds(s, w) && RoundConstantIs(ir, rc)
    ensures Holds(Iota(s, ir), IotaWords(w, rc))
  {
    hide LaneIs, Iota, RoundConstantIs, XorWord;
    IotaFirstLane(s, ir, w.a0, rc);
    IotaOtherLane(s, ir, 1, 0, w.a1);
    IotaOtherLane(s, ir, 2, 0, w.a2);
    IotaOtherLane(s, ir, 3, 0, w.a3);
    IotaOtherLane(s, ir, 4, 0, w.a4);
    IotaOtherLane(s, ir, 0, 1, w.a5);
    IotaOtherLane(s, ir, 1, 1, w.a6);
    IotaOtherLane(s, ir, 2, 1, w.a7);
    IotaOtherLane(s, ir, 3, 1, w.a8);
    IotaOtherLane(s, ir, 4, 1, w.a9);
    IotaOtherLane(s, ir, 0, 2, w.a10);
    IotaOtherLane(s, ir, 1, 2, w.a11);
    IotaOtherLane(s, ir, 2, 2, w.a12);
    IotaOtherLane(s, ir, 3, 2, w.a13);
    IotaOtherLane(s, ir, 4, 2, w.a14);
    IotaOtherLane(s, ir, 0, 3, w.a15);
    IotaOtherLane(s, ir, 1, 3, w.a16);
    IotaOtherLane(s, ir, 2, 3, w.a17);
    IotaOtherLane(s, ir, 3, 3, w.a18);
    IotaOtherLane(s, ir, 4, 3, w.a19);
    IotaOtherLane(s, ir, 0, 4, w.a20);
    IotaOtherLane(s, ir, 1, 4, w.a21);
    IotaOtherLane(s, ir, 2, 4, w.a22);
    IotaOtherLane(s, ir, 3, 4, w.a23);
    IotaOtherLane(s, ir, 4, 4, w.a24);
  }

  // ----- a round

  lemma RoundHolds(s: State, ir: nat, w: Words, rc: Word)
    requires Holds(s, w) && RoundConstantIs(ir, rc)
    ensures var c := ColumnWords(w);
            Holds(Round(s, ir), IotaWords(ChiWords(RhoPiWords(ThetaWords(w, c, TurnedColumns(c)))), rc))
  {
    hide Holds, RoundConstantIs, Theta, Rho, Pi, Chi, Iota, ThetaWords, RhoPiWords, ChiWords, IotaWords, ColumnWords,
      TurnedColumns, ColumnsHold;
    var w1 := ThetaWords(w, ColumnWords(w), TurnedColumns(ColumnWords(w)));
    ParitiesHold(s, w);
    ThetaHolds(s, w, ColumnWords(w));
    RhoPiHolds(Theta(s), w1);
    ChiHolds(Pi(Rho(Theta(s))), RhoPiWords(w1));
    IotaHolds(Chi(Pi(Rho(Theta(s)))), ir, ChiWords(RhoPiWords(w1)), rc);
  }
}
