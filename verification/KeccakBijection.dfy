/**
 Keccak-f[1600] is a permutation of the states: every step mapping has a two-sided inverse,
 and so has their 24-fold composition. The interesting one is theta, whose parity map has
 order 192: squaring it doubles its shifts, and after 64 applications the rotation along
 the lane is gone.
 */
module KeccakBijection {
  import opened Fips202

  // ----- the parity map of theta

  /** p[x, z] + p[x - m, z] + p[x + m, z - m]; theta acts on parity planes as Mix(p, 1). */
  function Mix(p: Plane, m: nat): Plane {
    TabulatePlane((x, z) => PlaneAt(p, x, z) != (PlaneAt(p, x - m, z) != PlaneAt(p, x + m, z - m)))
  }

  lemma MixInRange(p: Plane, m: nat, x: int, z: int)
    requires 0 <= x < 5 && 0 <= z < 64
    ensures PlaneAt(Mix(p, m), x, z) ==
            (PlaneAt(p, x, z) != (PlaneAt(p, x - m, z) != PlaneAt(p, x + m, z - m)))
  {
    hide PlaneAt;
    TabulatePlaneAt((x, z) => PlaneAt(p, x, z) != (PlaneAt(p, x - m, z) != PlaneAt(p, x + m, z - m)), x, z);
    assert x % 5 == x && z % 64 == z;
  }

  lemma MixAt(p: Plane, m: nat, x: int, z: int)
    ensures PlaneAt(Mix(p, m), x, z) ==
            (PlaneAt(p, x, z) != (PlaneAt(p, x - m, z) != PlaneAt(p, x + m, z - m)))
  {
    hide PlaneAt, Mix;
    var w, u := x % 5, z % 64;
    MixInRange(p, m, w, u);
    assert PlaneAt(Mix(p, m), w, u) == PlaneAt(Mix(p, m), x, z) by { PlaneShift(Mix(p, m), x, z, 0, 0); }
    assert PlaneAt(p, w, u) == PlaneAt(p, x, z) by { PlaneShift(p, x, z, 0, 0); }
    assert PlaneAt(p, w - m, u) == PlaneAt(p, x - m, z) by { PlaneShift(p, x, z, 0 - m, 0); }
    assert PlaneAt(p, w + m, u - m) == PlaneAt(p, x + m, z - m) by { PlaneShift(p, x, z, m, 0 - m); }
  }

  /** Reducing a coordinate before shifting it changes nothing. */
  lemma Shift5(x: int, m: int)
    ensures (x % 5 + m) % 5 == (x + m) % 5
  {
  }

  lemma Shift64(z: int, m: int)
    ensures (z % 64 + m) % 64 == (z + m) % 64
  {
  }

  lemma PlaneShift(p: Plane, x: int, z: int, dx: int, dz: int)
    ensures PlaneAt(p, x % 5 + dx, z % 64 + dz) == PlaneAt(p, x + dx, z + dz)
  {
    Shift5(x, dx);
    Shift64(z, dz);
  }

  lemma PlaneWraps(p: Plane, x: int, z: int, x': int, z': int)
    requires x % 5 == x' % 5 && z % 64 == z' % 64
    ensures PlaneAt(p, x, z) == PlaneAt(p, x', z')
  {
  }

  /** The cross terms cancel: mixing twice by `m` is mixing once by `2 m`. */
  lemma MixTwice(p: Plane, m: nat)
    ensures Mix(Mix(p, m), m) == Mix(p, 2 * m)
  {
    hide PlaneAt, Mix;
    forall x, z | 0 <= x < 5 && 0 <= z < 64
      ensures PlaneAt(Mix(Mix(p, m), m), x, z) == PlaneAt(Mix(p, 2 * m), x, z)
    {
      MixAt(Mix(p, m), m, x, z);
      MixAt(p, m, x, z);
      MixAt(p, m, x - m, z);
      MixAt(p, m, x + m, z - m);
      MixAt(p, 2 * m, x, z);
    }
    SamePlane(Mix(Mix(p, m), m), Mix(p, 2 * m));
  }

  function Power(p: Plane, n: nat): Plane {
    if n == 0 then p else Mix(Power(p, n - 1), 1)
  }

  lemma {:induction false} PowerAdd(p: Plane, m: nat, n: nat)
    ensures Power(p, m + n) == Power(Power(p, m), n)
    decreases n
  {
    hide Mix;
    if n > 0 {
      PowerAdd(p, m, n - 1);
    }
  }

  function Pow2(k: nat): nat {
    if k == 0 then 1 else 2 * Pow2(k - 1)
  }

  lemma {:induction false} PowerOfTwo(p: Plane, k: nat)
    ensures Power(p, Pow2(k)) == Mix(p, Pow2(k))
    decreases k
  {
    hide Mix;
    if k == 0 {
      assert Power(p, 0) == p;
      assert Power(p, 1) == Mix(Power(p, 0), 1);
    } else {
      var h := Pow2(k - 1);
      PowerAdd(p, h, h);
      PowerOfTwo(p, k - 1);
      PowerOfTwo(Mix(p, h), k - 1);
      MixTwice(p, h);
    }
  }

  /** Mixing by 64 and then by 128 is the identity: 64 = -1 modulo 5 and 0 modulo 64. */
  lemma Mix64Then128(p: Plane)
    ensures Mix(Mix(p, 64), 128) == p
  {
    hide PlaneAt, Mix;
    var q := Mix(p, 64);
    forall x, z | 0 <= x < 5 && 0 <= z < 64
      ensures PlaneAt(Mix(q, 128), x, z) == PlaneAt(p, x, z)
    {
      MixAt(q, 128, x, z);
      Mix64At(p, x, z);
      PlaneWraps(q, x - 128, z, x + 2, z);
      PlaneWraps(q, x + 128, z - 128, x - 2, z);
      Mix64At(p, x + 2, z);
      Mix64At(p, x - 2, z);
      PlaneWraps(p, x + 3, z, x - 2, z);
      PlaneWraps(p, x - 3, z, x + 2, z);
    }
    SamePlane(Mix(q, 128), p);
  }

  lemma Mix64At(p: Plane, x: int, z: int)
    ensures PlaneAt(Mix(p, 64), x, z) == (PlaneAt(p, x, z) != (PlaneAt(p, x + 1, z) != PlaneAt(p, x - 1, z)))
  {
    hide PlaneAt, Mix;
    MixAt(p, 64, x, z);
    PlaneWraps(p, x - 64, z, x + 1, z);
    PlaneWraps(p, x + 64, z - 64, x - 1, z);
  }

  /** The parity map of theta has order 192. */
  lemma ParityMapOrder(p: Plane)
    ensures Power(p, 192) == p
  {
    hide Mix;
    PowerOfTwo(p, 6);
    PowerOfTwo(Mix(p, 64), 7);
    assert Pow2(6) == 64 && Pow2(7) == 128;
    PowerAdd(p, 64, 128);
    Mix64Then128(p);
  }

  // ----- theta

  function ThetaInverse(s: State): State {
    AddEffect(s, Power(Parities(s), 191))
  }

  lemma AddEffectAt(s: State, p: Plane, x: int, y: int, z: int)
    requires 0 <= x < 5 && 0 <= y < 5 && 0 <= z < 64
    ensures At(AddEffect(s, p), x, y, z) == (At(s, x, y, z) != Effect(p, x, z))
  {
    hide At, PlaneAt;
    TabulateAt((x, y, z) => At(s, x, y, z) != Effect(p, x, z), x, y, z);
  }

  /** Every column has five bits, an odd number, so the effect shows once in its parity. */
  lemma ParitiesOfAddEffect(s: State, p: Plane, x: int, z: int)
    requires 0 <= x < 5 && 0 <= z < 64
    ensures PlaneAt(Parities(AddEffect(s, p)), x, z) == (PlaneAt(Parities(s), x, z) != Effect(p, x, z))
  {
    hide At, PlaneAt, AddEffect, Effect;
    var t := AddEffect(s, p);
    TabulatePlaneAt((x, z) => ColumnParity(t, x, z), x, z);
    TabulatePlaneAt((x, z) => ColumnParity(s, x, z), x, z);
    AddEffectAt(s, p, x, 0, z);
    AddEffectAt(s, p, x, 1, z);
    AddEffectAt(s, p, x, 2, z);
    AddEffectAt(s, p, x, 3, z);
    AddEffectAt(s, p, x, 4, z);
  }

  lemma AddEffectTwice(s: State, p: Plane)
    ensures AddEffect(AddEffect(s, p), p) == s
  {
    hide At, AddEffect, Effect;
    var t := AddEffect(AddEffect(s, p), p);
    forall x, y, z | 0 <= x < 5 && 0 <= y < 5 && 0 <= z < 64
      ensures At(t, x, y, z) == At(s, x, y, z)
    {
      AddEffectAt(s, p, x, y, z);
      AddEffectAt(AddEffect(s, p), p, x, y, z);
    }
    SameState(t, s);
  }

  lemma ParitiesOfTheta(s: State)
    ensures Parities(Theta(s)) == Mix(Parities(s), 1)
  {
    hide PlaneAt, Parities, AddEffect, Mix;
    var p := Parities(s);
    forall x, z | 0 <= x < 5 && 0 <= z < 64
      ensures PlaneAt(Parities(Theta(s)), x, z) == PlaneAt(Mix(p, 1), x, z)
    {
      ParitiesOfAddEffect(s, p, x, z);
      MixAt(p, 1, x, z);
    }
    SamePlane(Parities(Theta(s)), Mix(p, 1));
  }

  /** Adding the effect of `p` undoes theta when `p` is the plane theta started from. */
  lemma ParitiesOfThetaInverse(s: State)
    ensures Parities(ThetaInverse(s)) == Power(Parities(s), 191)
  {
    hide PlaneAt, Parities, AddEffect, Mix;
    var p := Power(Parities(s), 191);
    ParityMapOrder(Parities(s));
    assert Power(Parities(s), 192) == Mix(p, 1);
    var t := Parities(ThetaInverse(s));
    forall x, z | 0 <= x < 5 && 0 <= z < 64
      ensures PlaneAt(t, x, z) == PlaneAt(p, x, z)
    {
      ParitiesOfAddEffect(s, p, x, z);
      MixAt(p, 1, x, z);
    }
    SamePlane(t, p);
  }

  lemma ThetaInverts(s: State)
    ensures ThetaInverse(Theta(s)) == s
    ensures Theta(ThetaInverse(s)) == s
  {
    hide Parities, AddEffect, Mix;
    var p := Parities(s);
    ParitiesOfTheta(s);
    PowerAdd(p, 1, 191);
    assert Power(p, 0) == p;
    assert Power(p, 1) == Mix(p, 1);
    ParityMapOrder(p);
    AddEffectTwice(s, p);

    ParitiesOfThetaInverse(s);
    AddEffectTwice(s, Power(p, 191));
  }

  // ----- rho and pi

  function RhoInverse(s: State): State {
    Tabulate((x, y, z) => At(s, x, y, z + RhoOffset(x, y)))
  }

  function PiInverse(s: State): State {
    Tabulate((x, y, z) => At(s, y, 2 * x + 3 * y, z))
  }

  lemma Wraps(s: State, x: int, y: int, z: int, x': int, y': int, z': int)
    requires x % 5 == x' % 5 && y % 5 == y' % 5 && z % 64 == z' % 64
    ensures At(s, x, y, z) == At(s, x', y', z')
  {
  }

  lemma RhoAt(s: State, x: int, y: int, z: int)
    requires 0 <= x < 5 && 0 <= y < 5
    ensures At(Rho(s), x, y, z) == At(s, x, y, z - RhoOffset(x, y))
    ensures At(RhoInverse(s), x, y, z) == At(s, x, y, z + RhoOffset(x, y))
  {
    hide At, RhoOffset;
    var o := RhoOffset(x, y);
    Shift64(z, -o);
    Shift64(z, o);
    TabulateAt((x, y, z) => At(s, x, y, z - RhoOffset(x, y)), x, y, z % 64);
    TabulateAt((x, y, z) => At(s, x, y, z + RhoOffset(x, y)), x, y, z % 64);
    Wraps(Rho(s), x, y, z, x, y, z % 64);
    Wraps(RhoInverse(s), x, y, z, x, y, z % 64);
    Wraps(s, x, y, z - o, x, y, z % 64 - o);
    Wraps(s, x, y, z + o, x, y, z % 64 + o);
  }

  lemma RhoInverts(s: State)
    ensures RhoInverse(Rho(s)) == s
    ensures Rho(RhoInverse(s)) == s
  {
    hide At, Rho, RhoInverse, RhoOffset;
    forall x, y, z | 0 <= x < 5 && 0 <= y < 5 && 0 <= z < 64
      ensures At(RhoInverse(Rho(s)), x, y, z) == At(s, x, y, z)
      ensures At(Rho(RhoInverse(s)), x, y, z) == At(s, x, y, z)
    {
      RhoAt(Rho(s), x, y, z);
      RhoAt(s, x, y, z + RhoOffset(x, y));
      RhoAt(RhoInverse(s), x, y, z);
      RhoAt(s, x, y, z - RhoOffset(x, y));
    }
    SameState(RhoInverse(Rho(s)), s);
    SameState(Rho(RhoInverse(s)), s);
  }

  lemma PiWraps(x: int, y: int)
    ensures (x % 5 + 3 * (y % 5)) % 5 == (x + 3 * y) % 5
  {
    Shift5(x, 3 * (y % 5));
    assert x + 3 * y == x + 3 * (y % 5) + 5 * (3 * (y / 5));
    Multiple5(x + 3 * (y % 5), 3 * (y / 5));
  }

  lemma PiInverseWraps(x: int, y: int)
    ensures (2 * (x % 5) + 3 * (y % 5)) % 5 == (2 * x + 3 * y) % 5
  {
    assert 2 * x + 3 * y == 2 * (x % 5) + 3 * (y % 5) + 5 * (2 * (x / 5) + 3 * (y / 5));
    Multiple5(2 * (x % 5) + 3 * (y % 5), 2 * (x / 5) + 3 * (y / 5));
  }

  lemma Multiple5(a: int, q: int)
    ensures (a + 5 * q) % 5 == a % 5
  {
  }

  lemma PiAt(s: State, x: int, y: int, z: int)
    requires 0 <= z < 64
    ensures At(Pi(s), x, y, z) == At(s, x + 3 * y, x, z)
    ensures At(PiInverse(s), x, y, z) == At(s, y, 2 * x + 3 * y, z)
  {
    hide At;
    PiWraps(x, y);
    PiInverseWraps(x, y);
    TabulateAt((x, y, z) => At(s, x + 3 * y, x, z), x % 5, y % 5, z);
    TabulateAt((x, y, z) => At(s, y, 2 * x + 3 * y, z), x % 5, y % 5, z);
    Wraps(Pi(s), x, y, z, x % 5, y % 5, z);
    Wraps(PiInverse(s), x, y, z, x % 5, y % 5, z);
    Wraps(s, x + 3 * y, x, z, x % 5 + 3 * (y % 5), x % 5, z);
    Wraps(s, y, 2 * x + 3 * y, z, y % 5, 2 * (x % 5) + 3 * (y % 5), z);
  }

  lemma PiInverts(s: State)
    ensures PiInverse(Pi(s)) == s
    ensures Pi(PiInverse(s)) == s
  {
    hide At, Pi, PiInverse;
    forall x, y, z | 0 <= x < 5 && 0 <= y < 5 && 0 <= z < 64
      ensures At(PiInverse(Pi(s)), x, y, z) == At(s, x, y, z)
      ensures At(Pi(PiInverse(s)), x, y, z) == At(s, x, y, z)
    {
      Multiple5(x, x + 2 * y);
      Multiple5(y, x + y);
      PiAt(Pi(s), x, y, z);
      PiAt(s, y, 2 * x + 3 * y, z);
      Wraps(s, y + 3 * (2 * x + 3 * y), y, z, x, y, z);
      PiAt(PiInverse(s), x, y, z);
      PiAt(s, x + 3 * y, x, z);
      Wraps(s, x, 2 * (x + 3 * y) + 3 * x, z, x, y, z);
    }
    SameState(PiInverse(Pi(s)), s);
    SameState(Pi(PiInverse(s)), s);
  }

  // ----- chi

  /** Recovers bit 0 of a row of five from the row chi made of it. */
  function ChiInverseBit(b0: bool, b1: bool, b2: bool, b3: bool, b4: bool): bool {
    b0 != (!b1 && (b2 != (!b3 && b4)))
  }

  function ChiInverse(s: State): State {
    Tabulate((x, y, z) => ChiInverseBit(At(s, x, y, z), At(s, x + 1, y, z), At(s, x + 2, y, z),
                                        At(s, x + 3, y, z), At(s, x + 4, y, z)))
  }

  lemma StateShift(s: State, x: int, y: int, z: int, dx: int)
    ensures At(s, x % 5 + dx, y, z) == At(s, x + dx, y, z)
  {
    Shift5(x, dx);
  }

  lemma ChiInRange(s: State, x: int, y: int, z: int)
    requires 0 <= x < 5 && 0 <= y < 5 && 0 <= z < 64
    ensures At(Chi(s), x, y, z) == ChiBit(At(s, x, y, z), At(s, x + 1, y, z), At(s, x + 2, y, z))
  {
    hide At, ChiBit;
    TabulateAt((x, y, z) => ChiBit(At(s, x, y, z), At(s, x + 1, y, z), At(s, x + 2, y, z)), x, y, z);
  }

  lemma ChiAt(s: State, x: int, y: int, z: int)
    requires 0 <= y < 5 && 0 <= z < 64
    ensures At(Chi(s), x, y, z) == ChiBit(At(s, x, y, z), At(s, x + 1, y, z), At(s, x + 2, y, z))
  {
    hide At, Chi, ChiBit;
    var w := x % 5;
    ChiInRange(s, w, y, z);
    assert At(Chi(s), w, y, z) == At(Chi(s), x, y, z) by { StateShift(Chi(s), x, y, z, 0); }
    assert At(s, w, y, z) == At(s, x, y, z) by { StateShift(s, x, y, z, 0); }
    StateShift(s, x, y, z, 1);
    StateShift(s, x, y, z, 2);
  }

  lemma ChiInverseInRange(s: State, x: int, y: int, z: int)
    requires 0 <= x < 5 && 0 <= y < 5 && 0 <= z < 64
    ensures At(ChiInverse(s), x, y, z) ==
            ChiInverseBit(At(s, x, y, z), At(s, x + 1, y, z), At(s, x + 2, y, z),
                          At(s, x + 3, y, z), At(s, x + 4, y, z))
  {
    hide At, ChiInverseBit;
    TabulateAt((x, y, z) => ChiInverseBit(At(s, x, y, z), At(s, x + 1, y, z), At(s, x + 2, y, z),
                                          At(s, x + 3, y, z), At(s, x + 4, y, z)), x, y, z);
  }

  lemma ChiInverseAt(s: State, x: int, y: int, z: int)
    requires 0 <= y < 5 && 0 <= z < 64
    ensures At(ChiInverse(s), x, y, z) ==
            ChiInverseBit(At(s, x, y, z), At(s, x + 1, y, z), At(s, x + 2, y, z),
                          At(s, x + 3, y, z), At(s, x + 4, y, z))
  {
    hide At, ChiInverse, ChiInverseBit;
    var w := x % 5;
    ChiInverseInRange(s, w, y, z);
    assert At(ChiInverse(s), w, y, z) == At(ChiInverse(s), x, y, z) by { StateShift(ChiInverse(s), x, y, z, 0); }
    assert At(s, w, y, z) == At(s, x, y, z) by { StateShift(s, x, y, z, 0); }
    StateShift(s, x, y, z, 1);
    StateShift(s, x, y, z, 2);
    StateShift(s, x, y, z, 3);
    StateShift(s, x, y, z, 4);
  }

  lemma ChiThenInverse(s: State, x: int, y: int, z: int)
    requires 0 <= x < 5 && 0 <= y < 5 && 0 <= z < 64
    ensures At(ChiInverse(Chi(s)), x, y, z) == At(s, x, y, z)
  {
    hide At, Chi, ChiInverse;
    ChiInverseAt(Chi(s), x, y, z);
    ChiAt(s, x, y, z);
    ChiAt(s, x + 1, y, z);
    ChiAt(s, x + 2, y, z);
    ChiAt(s, x + 3, y, z);
    ChiAt(s, x + 4, y, z);
    Wraps(s, x + 5, y, z, x, y, z);
    Wraps(s, x + 6, y, z, x + 1, y, z);
  }

  lemma InverseThenChi(s: State, x: int, y: int, z: int)
    requires 0 <= x < 5 && 0 <= y < 5 && 0 <= z < 64
    ensures At(Chi(ChiInverse(s)), x, y, z) == At(s, x, y, z)
  {
    hide At, Chi, ChiInverse;
    ChiAt(ChiInverse(s), x, y, z);
    ChiInverseAt(s, x, y, z);
    ChiInverseAt(s, x + 1, y, z);
    ChiInverseAt(s, x + 2, y, z);
    Wraps(s, x + 5, y, z, x, y, z);
    Wraps(s, x + 6, y, z, x + 1, y, z);
  }

  lemma ChiInverts(s: State)
    ensures ChiInverse(Chi(s)) == s
    ensures Chi(ChiInverse(s)) == s
  {
    hide At, Chi, ChiInverse;
    forall x, y, z | 0 <= x < 5 && 0 <= y < 5 && 0 <= z < 64
      ensures At(ChiInverse(Chi(s)), x, y, z) == At(s, x, y, z)
      ensures At(Chi(ChiInverse(s)), x, y, z) == At(s, x, y, z)
    {
      ChiThenInverse(s, x, y, z);
      InverseThenChi(s, x, y, z);
    }
    SameState(ChiInverse(Chi(s)), s);
    SameState(Chi(ChiInverse(s)), s);
  }

  // ----- iota and the whole permutation

  lemma IotaTwice(s: State, ir: nat)
    ensures Iota(Iota(s, ir), ir) == s
  {
    hide At, RoundConstant;
    var t := Iota(s, ir);
    forall x, y, z | 0 <= x < 5 && 0 <= y < 5 && 0 <= z < 64
      ensures At(Iota(t, ir), x, y, z) == At(s, x, y, z)
    {
      TabulateAt((x, y, z) => At(s, x, y, z) != (x == 0 && y == 0 && RoundConstant(ir, z)), x, y, z);
      TabulateAt((x, y, z) => At(t, x, y, z) != (x == 0 && y == 0 && RoundConstant(ir, z)), x, y, z);
    }
    SameState(Iota(t, ir), s);
  }

  function RoundInverse(s: State, ir: nat): State {
    ThetaInverse(RhoInverse(PiInverse(ChiInverse(Iota(s, ir)))))
  }

  lemma RoundInverts(s: State, ir: nat)
    ensures RoundInverse(Round(s, ir), ir) == s
    ensures Round(RoundInverse(s, ir), ir) == s
  {
    hide Iota, Chi, Pi, Rho, Theta, ThetaInverse, RhoInverse, PiInverse, ChiInverse;
    IotaTwice(Chi(Pi(Rho(Theta(s)))), ir);
    ChiInverts(Pi(Rho(Theta(s))));
    PiInverts(Rho(Theta(s)));
    RhoInverts(Theta(s));
    ThetaInverts(s);

    var c := Iota(s, ir);
    ThetaInverts(RhoInverse(PiInverse(ChiInverse(c))));
    RhoInverts(PiInverse(ChiInverse(c)));
    PiInverts(ChiInverse(c));
    ChiInverts(c);
    IotaTwice(s, ir);
  }

  function RoundsInverse(s: State, n: nat): State
    decreases n
  {
    if n == 0 then s else RoundsInverse(RoundInverse(s, n - 1), n - 1)
  }

  lemma {:induction false} RoundsInvert(s: State, n: nat)
    ensures RoundsInverse(Rounds(s, n), n) == s
    ensures Rounds(RoundsInverse(s, n), n) == s
    decreases n
  {
    hide Round, RoundInverse;
    if n > 0 {
      RoundInverts(Rounds(s, n - 1), n - 1);
      RoundsInvert(s, n - 1);
      RoundsInvert(RoundInverse(s, n - 1), n - 1);
      RoundInverts(s, n - 1);
    }
  }

  /** Keccak-f is onto: the state `RoundsInverse(s, 24)` is mapped to `s`. */
  lemma KeccakFSurjective(s: State)
    ensures exists t: State :: KeccakF(t) == s
  {
    hide Round, RoundInverse;
    RoundsInvert(s, 24);
    assert KeccakF(RoundsInverse(s, 24)) == s;
  }

  /** Keccak-f is one-to-one. */
  lemma KeccakFInjective(s: State, t: State)
    requires KeccakF(s) == KeccakF(t)
    ensures s == t
  {
    hide Round, RoundInverse;
    RoundsInvert(s, 24);
    RoundsInvert(t, 24);
  }
}
