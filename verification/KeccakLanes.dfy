/**
 What each loop of `keccak_f` in packages/trace/python/trace.py computes, as a function on
 twenty-five Python integers, and a proof that it is a step mapping of FIPS 202 on the bits
 of those integers.
 */
module KeccakLanes {
  import opened PyInts
  import opened Fips202
  import opened KeccakTables
  import KeccakBijection

  const MASK_64 := Ones(64)

  /** Twenty-five lanes below 2^64: what `state` holds between any two steps. */
  predicate Lanes(s: seq<int>) {
    |s| == 25 && forall i :: 0 <= i < 25 ==> Fits(s[i], 64)
  }

  /** The state string the lanes stand for: lane x + 5 y holds the bits A[x, y, 0..63]. */
  function StateOf(s: seq<int>): State
    requires |s| == 25
  {
    seq(1600, k requires 0 <= k < 1600 => Bit(s[k / 64], k % 64))
  }

  lemma StateOfAt(s: seq<int>, x: int, y: int, z: int)
    requires |s| == 25 && 0 <= x < 5 && 0 <= y < 5 && 0 <= z < 64
    ensures At(StateOf(s), x, y, z) == Bit(s[x + 5 * y], z)
  {
    hide Bit;
    Coordinates(x, y, z);
    assert (64 * (5 * y + x) + z) / 64 == x + 5 * y;
    assert x % 5 == x && y % 5 == y && z % 64 == z;
  }

  lemma LaneBit(s: seq<int>, j: nat, z: nat)
    requires |s| == 25 && j < 25 && z < 64
    ensures StateOf(s)[64 * j + z] == Bit(s[j], z)
  {
    hide Bit;
    assert (64 * j + z) / 64 == j && (64 * j + z) % 64 == z;
  }

  /** A list of twenty-five lanes is determined by its state string. */
  lemma StateDetermines(s: seq<int>, t: seq<int>)
    requires Lanes(s) && Lanes(t) && StateOf(s) == StateOf(t)
    ensures s == t
  {
    forall j | 0 <= j < 25
      ensures s[j] == t[j]
    {
      hide StateOf, Fits;
      forall z: nat | z < 64
        ensures Bit(s[j], z) == Bit(t[j], z)
      {
        LaneBit(s, j, z);
        LaneBit(t, j, z);
      }
      SameBits(s[j], t[j], 64);
    }
  }

  /**
   On lists of lanes: if the permutation takes two of them to equal lists, they were equal.
   `u` and `v` are what it leaves of `s` and `t`.
   */
  lemma PermutationInjective(s: seq<int>, t: seq<int>, u: seq<int>, v: seq<int>)
    requires Lanes(s) && Lanes(t) && Lanes(u) && Lanes(v)
    requires StateOf(u) == KeccakF(StateOf(s)) && StateOf(v) == KeccakF(StateOf(t))
    ensures u == v <==> s == t
  {
    hide Fits, StateOf, KeccakF;
    if u == v {
      KeccakBijection.KeccakFInjective(StateOf(s), StateOf(t));
      StateDetermines(s, t);
    }
    if s == t {
      StateDetermines(u, v);
    }
  }

  // ----- rotl64

  function Rotl64(value: int, shift: int): int {
    var s := shift % 64;
    if s == 0 then And(value, MASK_64)
    else And(Or(Shl(value, s), Shr(value, 64 - s)), MASK_64)
  }

  lemma BitOfMasked(a: int, z: nat)
    ensures Bit(And(a, MASK_64), z) == (z < 64 && Bit(a, z))
  {
    BitOfAnd(a, MASK_64, z);
    BitOfOnes(64, z);
  }

  /** On a 64-bit lane, rotl64 is the rotation of FIPS 202: bit z comes from z - shift. */
  lemma BitOfRotl64(v: int, shift: int, z: int)
    requires Fits(v, 64) && 0 <= z < 64
    ensures Bit(Rotl64(v, shift), z) == Bit(v, (z - shift) % 64)
  {
    hide Bit, And, Or, Shl, Shr, MASK_64;
    var s := shift % 64;
    assert (z - shift) % 64 == if z >= s then z - s else z - s + 64;
    if s == 0 {
      BitOfMasked(v, z);
    } else {
      BitOfMasked(Or(Shl(v, s), Shr(v, 64 - s)), z);
      BitOfOr(Shl(v, s), Shr(v, 64 - s), z);
      BitOfShl(v, s, z);
      BitOfShr(v, 64 - s, z);
      if z >= s {
        NoHighBits(v, 64, z + (64 - s));
      }
    }
  }

  lemma Rotl64Fits(v: int, shift: int)
    ensures Fits(Rotl64(v, shift), 64)
  {
    var s := shift % 64;
    MaskFits(v, 64);
    MaskFits(Or(Shl(v, s), Shr(v, 64 - s)), 64);
  }

  // ----- theta

  /** c[x] of trace.py:146-149 */
  function ParityLane(s: seq<int>, x: int): int
    requires |s| == 25 && 0 <= x < 5
  {
    Xor(Xor(Xor(Xor(s[x], s[x + 5]), s[x + 10]), s[x + 15]), s[x + 20])
  }

  /** d[x] of trace.py:150-153 */
  function EffectLane(s: seq<int>, x: int): int
    requires |s| == 25 && 0 <= x < 5
  {
    Xor(ParityLane(s, (x - 1) % 5), Rotl64(ParityLane(s, (x + 1) % 5), 1))
  }

  lemma ThetaParts(s: seq<int>, x: int)
    requires |s| == 25 && 0 <= x < 5
    ensures ParityLane(s, x) == Xor(Xor(Xor(Xor(s[x], s[x + 5]), s[x + 10]), s[x + 15]), s[x + 20])
    ensures EffectLane(s, x) == Xor(ParityLane(s, (x - 1) % 5), Rotl64(ParityLane(s, (x + 1) % 5), 1))
  {
    hide Xor, Rotl64;
  }

  function ThetaLanes(s: seq<int>): seq<int>
    requires |s| == 25
  {
    seq(25, i requires 0 <= i < 25 => And(Xor(s[i], EffectLane(s, i % 5)), MASK_64))
  }

  lemma {:induction false} XorFits(a: int, b: int, n: nat)
    requires Fits(a, n) && Fits(b, n)
    ensures Fits(Xor(a, b), n)
    decreases n
  {
    if n > 0 && !(Magnitude(a) == 0 && Magnitude(b) == 0) {
      XorFits(a / 2, b / 2, n - 1);
    }
  }

  lemma ParityLaneBits(s: seq<int>, x: int, z: int)
    requires Lanes(s) && 0 <= x < 5 && 0 <= z < 64
    ensures Bit(ParityLane(s, x), z) == ColumnParity(StateOf(s), x, z)
    ensures Fits(ParityLane(s, x), 64)
  {
    hide Bit, Xor, At, StateOf;
    StateOfAt(s, x, 0, z);
    StateOfAt(s, x, 1, z);
    StateOfAt(s, x, 2, z);
    StateOfAt(s, x, 3, z);
    StateOfAt(s, x, 4, z);
    var c1 := Xor(s[x], s[x + 5]);
    var c2 := Xor(c1, s[x + 10]);
    var c3 := Xor(c2, s[x + 15]);
    BitOfXor(s[x], s[x + 5], z);
    BitOfXor(c1, s[x + 10], z);
    BitOfXor(c2, s[x + 15], z);
    BitOfXor(c3, s[x + 20], z);
    XorFits(s[x], s[x + 5], 64);
    XorFits(c1, s[x + 10], 64);
    XorFits(c2, s[x + 15], 64);
    XorFits(c3, s[x + 20], 64);
  }

  lemma EffectLaneBits(s: seq<int>, x: int, z: int)
    requires Lanes(s) && 0 <= x < 5 && 0 <= z < 64
    ensures Bit(EffectLane(s, x), z) == Effect(Parities(StateOf(s)), x, z)
  {
    hide Bit, Xor, ParityLane, ColumnParity, StateOf, Rotl64, PlaneAt;
    var a := StateOf(s);
    var l, r, w := (x - 1) % 5, (x + 1) % 5, (z - 1) % 64;
    BitOfXor(ParityLane(s, l), Rotl64(ParityLane(s, r), 1), z);
    ParityLaneBits(s, l, z);
    ParityLaneBits(s, r, w);
    BitOfRotl64(ParityLane(s, r), 1, z);
    TabulatePlaneAt((x, z) => ColumnParity(a, x, z), x - 1, z);
    TabulatePlaneAt((x, z) => ColumnParity(a, x, z), x + 1, z - 1);
    assert z % 64 == z;
  }

  /** The lanes trace.py:146-158 computes are the lanes of theta's result. */
  lemma ThetaLanesCorrect(s: seq<int>)
    requires Lanes(s)
    ensures Lanes(ThetaLanes(s))
    ensures StateOf(ThetaLanes(s)) == Theta(StateOf(s))
  {
    var t := ThetaLanes(s);
    var a := StateOf(s);
    forall i | 0 <= i < 25
      ensures Fits(t[i], 64)
    {
      MaskFits(Xor(s[i], EffectLane(s, i % 5)), 64);
    }
    forall x, y, z | 0 <= x < 5 && 0 <= y < 5 && 0 <= z < 64
      ensures At(StateOf(t), x, y, z) == At(Theta(a), x, y, z)
    {
      ThetaLaneBit(s, x, y, z);
    }
    SameState(StateOf(t), Theta(a));
  }

  lemma ThetaLaneBit(s: seq<int>, x: int, y: int, z: int)
    requires Lanes(s) && 0 <= x < 5 && 0 <= y < 5 && 0 <= z < 64
    ensures At(StateOf(ThetaLanes(s)), x, y, z) == At(Theta(StateOf(s)), x, y, z)
  {
    hide Bit, Xor, And, At, StateOf, EffectLane, Effect, MASK_64, Parities;
    var a := StateOf(s);
    var i := x + 5 * y;
    assert i % 5 == x;
    StateOfAt(ThetaLanes(s), x, y, z);
    BitOfMasked(Xor(s[i], EffectLane(s, x)), z);
    BitOfXor(s[i], EffectLane(s, x), z);
    EffectLaneBits(s, x, z);
    StateOfAt(s, x, y, z);
    var p := Parities(a);
    TabulateAt((x, y, z) => At(a, x, y, z) != Effect(p, x, z), x, y, z);
  }

  // ----- rho and pi, done by one loop in the source

  /** The lane whose rotation lands in lane `j`. */
  function SourceLane(j: int): int {
    (j % 5 + 3 * (j / 5)) % 5 + 5 * (j % 5)
  }

  /** Where the source puts lane x + 5 y: target_x + 5 * target_y of trace.py:164-166. */
  function TargetLane(x: int, y: int): int {
    y + 5 * ((2 * x + 3 * y) % 5)
  }

  lemma DivMod5(a: int, q: int, r: int)
    requires a == 5 * q + r && 0 <= r < 5
    ensures a / 5 == q && a % 5 == r
  {
  }

  /** Each lane has one target, and `SourceLane` finds the lane from its target. */
  lemma SourceOfTarget(x: int, y: int)
    requires 0 <= x < 5 && 0 <= y < 5
    ensures 0 <= TargetLane(x, y) < 25 && SourceLane(TargetLane(x, y)) == x + 5 * y
  {
    var q, ty := (2 * x + 3 * y) / 5, (2 * x + 3 * y) % 5;
    DivMod5(TargetLane(x, y), ty, y);
    DivMod5(y + 3 * ty, x + 2 * y - 3 * q, x);
  }

  lemma TargetOfSource(j: int)
    requires 0 <= j < 25
    ensures 0 <= SourceLane(j) < 25
    ensures TargetLane(SourceLane(j) % 5, SourceLane(j) / 5) == j
  {
    var tx, ty := j % 5, j / 5;
    DivMod5(SourceLane(j), tx, (tx + 3 * ty) % 5);
    UndoRow(tx, ty);
  }

  lemma UndoRow(tx: int, ty: int)
    requires 0 <= tx < 5 && 0 <= ty < 5
    ensures (2 * ((tx + 3 * ty) % 5) + 3 * tx) % 5 == ty
  {
    var q := (tx + 3 * ty) / 5;
    DivMod5(2 * ((tx + 3 * ty) % 5) + 3 * tx, tx + ty - 2 * q, ty);
  }

  function RhoPiLanes(s: seq<int>): seq<int>
    requires |s| == 25
  {
    seq(25, j requires 0 <= j < 25 => Rotl64(s[SourceLane(j)], ROTATION_OFFSETS[SourceLane(j)]))
  }

  lemma RhoPiLanesCorrect(s: seq<int>)
    requires Lanes(s)
    ensures Lanes(RhoPiLanes(s))
    ensures StateOf(RhoPiLanes(s)) == Pi(Rho(StateOf(s)))
  {
    var t := RhoPiLanes(s);
    forall j | 0 <= j < 25
      ensures Fits(t[j], 64)
    {
      Rotl64Fits(s[SourceLane(j)], ROTATION_OFFSETS[SourceLane(j)]);
    }
    var a := StateOf(s);
    forall x, y, z | 0 <= x < 5 && 0 <= y < 5 && 0 <= z < 64
      ensures At(StateOf(t), x, y, z) == At(Pi(Rho(a)), x, y, z)
    {
      RhoPiLaneBit(s, x, y, z);
    }
    SameState(StateOf(t), Pi(Rho(a)));
  }

  lemma RhoPiLaneBit(s: seq<int>, x: int, y: int, z: int)
    requires Lanes(s) && 0 <= x < 5 && 0 <= y < 5 && 0 <= z < 64
    ensures At(StateOf(RhoPiLanes(s)), x, y, z) == At(Pi(Rho(StateOf(s))), x, y, z)
  {
    Sizes();
    hide Bit, At, StateOf, Rotl64, ROTATION_OFFSETS, RhoOffset, Rho, Pi;
    var a := StateOf(s);
    var j := x + 5 * y;
    assert j % 5 == x && j / 5 == y;
    var sx := (x + 3 * y) % 5;
    assert SourceLane(j) == sx + 5 * x;
    StateOfAt(RhoPiLanes(s), x, y, z);
    RotationTable(sx, x);
    var o := ROTATION_OFFSETS[sx + 5 * x];
    BitOfRotl64(s[sx + 5 * x], o, z);
    PiOfRho(a, x, y, z, o);
    StateOfAt(s, sx, x, (z - o) % 64);
  }

  lemma ReducedShift(z: int, r: int)
    ensures (z - r) % 64 == (z - r % 64) % 64
  {
  }

  lemma PiOfRho(a: State, x: int, y: int, z: int, o: int)
    requires 0 <= x < 5 && 0 <= y < 5 && 0 <= z < 64
    requires o == RhoOffset((x + 3 * y) % 5, x) % 64
    ensures At(Pi(Rho(a)), x, y, z) == At(a, (x + 3 * y) % 5, x, (z - o) % 64)
  {
    hide At, RhoOffset, Pi, Rho;
    var sx := (x + 3 * y) % 5;
    var r := RhoOffset(sx, x);
    KeccakBijection.PiAt(Rho(a), x, y, z);
    assert At(Rho(a), x + 3 * y, x, z) == At(Rho(a), sx, x, z) by { KeccakBijection.StateShift(Rho(a), x + 3 * y, x, z, 0); }
    KeccakBijection.RhoAt(a, sx, x, z);
    assert At(a, sx, x, z - r) == At(a, sx, x, (z - o) % 64) by {
      ReducedShift(z, r);
      KeccakBijection.Wraps(a, sx, x, z - r, sx, x, (z - o) % 64);
    }
  }

  // ----- chi

  function ChiLane(b0: int, b1: int, b2: int): int {
    And(Xor(b0, And(And(Not(b1), MASK_64), b2)), MASK_64)
  }

  /** The lane `d` places further along the row of lane `i`. */
  function RowNeighbour(i: int, d: int): (j: int)
    requires 0 <= i < 25
    ensures 0 <= j < 25
  {
    (i % 5 + d) % 5 + 5 * (i / 5)
  }

  function ChiLanes(b: seq<int>): seq<int>
    requires |b| == 25
  {
    seq(25, i requires 0 <= i < 25 => ChiLane(b[i], b[RowNeighbour(i, 1)], b[RowNeighbour(i, 2)]))
  }

  lemma ChiLaneBits(b0: int, b1: int, b2: int, z: nat)
    requires z < 64
    ensures Bit(ChiLane(b0, b1, b2), z) == ChiBit(Bit(b0, z), Bit(b1, z), Bit(b2, z))
  {
    var m := And(Not(b1), MASK_64);
    BitOfMasked(Xor(b0, And(m, b2)), z);
    BitOfXor(b0, And(m, b2), z);
    BitOfAnd(m, b2, z);
    BitOfMasked(Not(b1), z);
    BitOfNot(b1, z);
  }

  lemma ChiLaneFits(b0: int, b1: int, b2: int)
    ensures Fits(ChiLane(b0, b1, b2), 64)
  {
    MaskFits(Xor(b0, And(And(Not(b1), MASK_64), b2)), 64);
  }

  lemma ChiLanesCorrect(b: seq<int>)
    requires Lanes(b)
    ensures Lanes(ChiLanes(b))
    ensures StateOf(ChiLanes(b)) == Chi(StateOf(b))
  {
    hide Fits, ChiLane, Chi, At, StateOf, RowNeighbour;
    var t := ChiLanes(b);
    var a := StateOf(b);
    forall i | 0 <= i < 25
      ensures Fits(t[i], 64)
    {
      ChiLaneFits(b[i], b[RowNeighbour(i, 1)], b[RowNeighbour(i, 2)]);
    }
    forall x, y, z | 0 <= x < 5 && 0 <= y < 5 && 0 <= z < 64
      ensures At(StateOf(t), x, y, z) == At(Chi(a), x, y, z)
    {
      ChiLaneBit(b, x, y, z);
    }
    SameState(StateOf(t), Chi(a));
  }

  lemma RowNeighbourOf(x: int, y: int, d: int)
    requires 0 <= x < 5 && 0 <= y < 5
    ensures RowNeighbour(x + 5 * y, d) == (x + d) % 5 + 5 * y
  {
    DivMod5(x + 5 * y, y, x);
  }

  lemma ChiStateBit(a: State, x: int, y: int, z: int)
    requires 0 <= x < 5 && 0 <= y < 5 && 0 <= z < 64
    ensures At(Chi(a), x, y, z) == ChiBit(At(a, x, y, z), At(a, (x + 1) % 5, y, z), At(a, (x + 2) % 5, y, z))
  {
    hide At, Chi, ChiBit;
    KeccakBijection.StateShift(a, x + 1, y, z, 0);
    KeccakBijection.StateShift(a, x + 2, y, z, 0);
    KeccakBijection.ChiInRange(a, x, y, z);
  }

  lemma ChiLaneBit(b: seq<int>, x: int, y: int, z: int)
    requires Lanes(b) && 0 <= x < 5 && 0 <= y < 5 && 0 <= z < 64
    ensures At(StateOf(ChiLanes(b)), x, y, z) == At(Chi(StateOf(b)), x, y, z)
  {
    hide Bit, At, StateOf, Chi, ChiLane, ChiBit, RowNeighbour;
    var i := x + 5 * y;
    StateOfAt(ChiLanes(b), x, y, z);
    RowNeighbourOf(x, y, 1);
    RowNeighbourOf(x, y, 2);
    ChiLaneBits(b[i], b[RowNeighbour(i, 1)], b[RowNeighbour(i, 2)], z);
    StateOfAt(b, x, y, z);
    StateOfAt(b, (x + 1) % 5, y, z);
    StateOfAt(b, (x + 2) % 5, y, z);
    ChiStateBit(StateOf(b), x, y, z);
  }

  // ----- iota

  function IotaLanes(s: seq<int>, ir: nat): seq<int>
    requires |s| == 25 && ir < 24
  {
    s[0 := And(Xor(s[0], ROUND_CONSTANTS[ir]), MASK_64)]
  }

  lemma IotaLanesCorrect(s: seq<int>, ir: nat)
    requires Lanes(s) && ir < 24
    ensures Lanes(IotaLanes(s, ir))
    ensures StateOf(IotaLanes(s, ir)) == Iota(StateOf(s), ir)
  {
    Sizes();
    hide ROUND_CONSTANTS;
    var t := IotaLanes(s, ir);
    MaskFits(Xor(s[0], ROUND_CONSTANTS[ir]), 64);
    var a := StateOf(s);
    forall x, y, z | 0 <= x < 5 && 0 <= y < 5 && 0 <= z < 64
      ensures At(StateOf(t), x, y, z) == At(Iota(a, ir), x, y, z)
    {
      IotaLaneBit(s, ir, x, y, z);
    }
    SameState(StateOf(t), Iota(a, ir));
  }

  lemma IotaLaneBit(s: seq<int>, ir: nat, x: int, y: int, z: int)
    requires Lanes(s) && ir < 24 && 0 <= x < 5 && 0 <= y < 5 && 0 <= z < 64
    ensures At(StateOf(IotaLanes(s, ir)), x, y, z) == At(Iota(StateOf(s), ir), x, y, z)
  {
    Sizes();
    hide Bit, At, StateOf, Xor, And, MASK_64, ROUND_CONSTANTS, RoundConstant;
    var a := StateOf(s);
    StateOfAt(IotaLanes(s, ir), x, y, z);
    StateOfAt(s, x, y, z);
    BitOfMasked(Xor(s[0], ROUND_CONSTANTS[ir]), z);
    BitOfXor(s[0], ROUND_CONSTANTS[ir], z);
    RoundTable(ir, z);
    TabulateAt((x, y, z) => At(a, x, y, z) != (x == 0 && y == 0 && RoundConstant(ir, z)), x, y, z);
  }
}
