/**
 The Keccak-f[1600] permutation and the sponge built on it, written as FIPS 202 writes
 them: a state is a string of 1600 bits, the step mappings of section 3.2 act on the bits
 A[x, y, z], and the sponge of section 4 acts on bit strings. Nothing here knows about
 integers, lanes or bytes.
 */
module Fips202 {

  const WIDTH := 1600
  const RATE := 1088

  /** The state string S of section 3.1.2; A[x, y, z] is S[64 (5 y + x) + z]. */
  type State = s: seq<bool> | |s| == 1600 witness seq(1600, _ => false)

  function Zero(): State {
    seq(1600, _ => false)
  }

  /** A[x, y, z], coordinates being taken modulo 5, 5 and 64. */
  function At(s: State, x: int, y: int, z: int): bool {
    s[64 * (5 * (y % 5) + x % 5) + z % 64]
  }

  function Tabulate(f: (int, int, int) -> bool): State {
    seq(1600, k requires 0 <= k < 1600 => f((k / 64) % 5, k / 320, k % 64))
  }

  lemma Coordinates(x: int, y: int, z: int)
    requires 0 <= x < 5 && 0 <= y < 5 && 0 <= z < 64
    ensures var k := 64 * (5 * y + x) + z;
            0 <= k < 1600 && (k / 64) % 5 == x && k / 320 == y && k % 64 == z
  {
    var k := 64 * (5 * y + x) + z;
    assert k / 64 == 5 * y + x;
    assert (5 * y + x) % 5 == x;
    assert k == 320 * y + (64 * x + z);
  }

  lemma TabulateAt(f: (int, int, int) -> bool, x: int, y: int, z: int)
    requires 0 <= x < 5 && 0 <= y < 5 && 0 <= z < 64
    ensures At(Tabulate(f), x, y, z) == f(x, y, z)
  {
    Coordinates(x, y, z);
    assert x % 5 == x && y % 5 == y && z % 64 == z;
  }

  /** States with the same bits are the same state. */
  lemma SameState(s: State, t: State)
    requires forall x, y, z :: 0 <= x < 5 && 0 <= y < 5 && 0 <= z < 64 ==> At(s, x, y, z) == At(t, x, y, z)
    ensures s == t
  {
    forall k | 0 <= k < 1600
      ensures s[k] == t[k]
    {
      Decoded(k);
      hide At;
      AtCoordinates(s, k);
      AtCoordinates(t, k);
      assert At(s, (k / 64) % 5, k / 320, k % 64) == At(t, (k / 64) % 5, k / 320, k % 64);
    }
  }

  lemma Decoded(k: nat)
    requires k < 1600
    ensures 0 <= (k / 64) % 5 < 5 && 0 <= k / 320 < 5 && 64 * (5 * (k / 320) + (k / 64) % 5) + k % 64 == k
  {
  }

  lemma AtCoordinates(s: State, k: nat)
    requires k < 1600
    ensures At(s, (k / 64) % 5, k / 320, k % 64) == s[k]
  {
    Decoded(k);
  }

  // ----- theta (section 3.2.1)

  /** A plane of column parities C[x, z], stored at 64 x + z. */
  type Plane = p: seq<bool> | |p| == 320 witness seq(320, _ => false)

  function PlaneAt(p: Plane, x: int, z: int): bool {
    p[64 * (x % 5) + z % 64]
  }

  function TabulatePlane(f: (int, int) -> bool): Plane {
    seq(320, k requires 0 <= k < 320 => f(k / 64, k % 64))
  }

  lemma TabulatePlaneAt(f: (int, int) -> bool, x: int, z: int)
    ensures PlaneAt(TabulatePlane(f), x, z) == f(x % 5, z % 64)
  {
    var k := 64 * (x % 5) + z % 64;
    assert k / 64 == x % 5 && k % 64 == z % 64;
  }

  lemma SamePlane(p: Plane, q: Plane)
    requires forall x, z :: 0 <= x < 5 && 0 <= z < 64 ==> PlaneAt(p, x, z) == PlaneAt(q, x, z)
    ensures p == q
  {
    forall k | 0 <= k < 320
      ensures p[k] == q[k]
    {
      assert PlaneAt(p, k / 64, k % 64) == PlaneAt(q, k / 64, k % 64);
      assert 64 * (k / 64) + k % 64 == k;
    }
  }

  /** C[x, z] */
  function ColumnParity(s: State, x: int, z: int): bool {
    At(s, x, 0, z) != (At(s, x, 1, z) != (At(s, x, 2, z) != (At(s, x, 3, z) != At(s, x, 4, z))))
  }

  function Parities(s: State): Plane {
    TabulatePlane((x, z) => ColumnParity(s, x, z))
  }

  /** D[x, z] */
  function Effect(p: Plane, x: int, z: int): bool {
    PlaneAt(p, x - 1, z) != PlaneAt(p, x + 1, z - 1)
  }

  /** Adds the effect of the parity plane `p` to every bit. */
  function AddEffect(s: State, p: Plane): State {
    Tabulate((x, y, z) => At(s, x, y, z) != Effect(p, x, z))
  }

  function Theta(s: State): State {
    AddEffect(s, Parities(s))
  }

  // ----- rho and pi (sections 3.2.2 and 3.2.3)

  /** The lane reached after `t` steps of the walk of Algorithm 2, which starts at (1, 0). */
  function Walk(t: nat): (int, int) {
    if t == 0 then (1, 0) else var p := Walk(t - 1); (p.1, (2 * p.0 + 3 * p.1) % 5)
  }

  /** The offset (t + 1)(t + 2) / 2 of the lane the walk visits at step `t`; 0 for lane (0, 0). */
  function RhoOffset(x: int, y: int, t: nat := 0): int
    decreases 24 - t
  {
    if t >= 24 then 0
    else if Walk(t) == (x, y) then (t + 1) * (t + 2) / 2
    else RhoOffset(x, y, t + 1)
  }

  function Rho(s: State): State {
    Tabulate((x, y, z) => At(s, x, y, z - RhoOffset(x, y)))
  }

  function Pi(s: State): State {
    Tabulate((x, y, z) => At(s, x + 3 * y, x, z))
  }

  // ----- chi (section 3.2.4)

  function ChiBit(a0: bool, a1: bool, a2: bool): bool {
    a0 != (!a1 && a2)
  }

  function Chi(s: State): State {
    Tabulate((x, y, z) => ChiBit(At(s, x, y, z), At(s, x + 1, y, z), At(s, x + 2, y, z)))
  }

  // ----- iota (section 3.2.5)

  /** The register R of Algorithm 5, eight bits. */
  datatype Register = R(r0: bool, r1: bool, r2: bool, r3: bool, r4: bool, r5: bool, r6: bool, r7: bool)

  /** The register after `t` shifts: R = 0 || R, R[0], R[4], R[5] and R[6] are xored with R[8], R[8] is dropped. */
  function RegisterAt(t: nat): Register {
    if t == 0 then R(true, false, false, false, false, false, false, false)
    else
      var r := RegisterAt(t - 1);
      R(r.r7, r.r0, r.r1, r.r2, r.r3 != r.r7, r.r4 != r.r7, r.r5 != r.r7, r.r6)
  }

  /** rc(t) of Algorithm 5, for t below 255. */
  predicate RoundBit(t: nat) {
    RegisterAt(t).r0
  }

  /** RC[z] of round `ir`: bit 2^j - 1 is rc(j + 7 ir), every other bit is 0. */
  predicate RoundConstant(ir: nat, z: int) {
    match z
    case 0 => RoundBit(7 * ir)
    case 1 => RoundBit(7 * ir + 1)
    case 3 => RoundBit(7 * ir + 2)
    case 7 => RoundBit(7 * ir + 3)
    case 15 => RoundBit(7 * ir + 4)
    case 31 => RoundBit(7 * ir + 5)
    case 63 => RoundBit(7 * ir + 6)
    case _ => false
  }

  function Iota(s: State, ir: nat): State {
    Tabulate((x, y, z) => At(s, x, y, z) != (x == 0 && y == 0 && RoundConstant(ir, z)))
  }

  // ----- the permutation (section 3.3)

  function Round(s: State, ir: nat): State {
    Iota(Chi(Pi(Rho(Theta(s)))), ir)
  }

  function Rounds(s: State, n: nat): State {
    if n == 0 then s else Round(Rounds(s, n - 1), n - 1)
  }

  function KeccakF(s: State): State {
    Rounds(s, 24)
  }

  // ----- the sponge (section 4) with padding pad10*1 (section 5.1)

  function Zeros(n: nat): (r: seq<bool>)
    ensures |r| == n
  {
    seq(n, _ => false)
  }

  /** Section 5.1: 1, then (-m - 2) mod RATE zeros, then 1. */
  function Pad(m: int): seq<bool> {
    [true] + Zeros((-m - 2) % RATE) + [true]
  }

  /** Adds a block to the front of the state, as if it were followed by zeros. */
  function XorBlock(s: State, block: seq<bool>): State
    requires |block| <= 1600
  {
    seq(1600, k requires 0 <= k < 1600 => s[k] != (k < |block| && block[k]))
  }

  function Absorb(s: State, p: seq<bool>): State
    requires |p| % RATE == 0
    decreases |p|
  {
    if p == [] then s else Absorb(KeccakF(XorBlock(s, p[..RATE])), p[RATE..])
  }

  function Squeeze(s: State, d: nat): (z: seq<bool>)
    ensures |z| == d
    decreases d
  {
    if d <= RATE then s[..d] else s[..RATE] + Squeeze(KeccakF(s), d - RATE)
  }

  lemma PadAligns(m: int)
    ensures (m + |Pad(m)|) % RATE == 0
  {
    var j := (-m - 2) % RATE;
    assert (m + j + 2) % RATE == 0;
  }

  /** KECCAK[512](message, d) of section 5.2. */
  function Keccak512(message: seq<bool>, d: nat): (z: seq<bool>)
    ensures |z| == d
  {
    PadAligns(|message|);
    Squeeze(Absorb(Zero(), message + Pad(|message|)), d)
  }

  lemma LongerDiffers(m: seq<bool>, n: seq<bool>)
    ensures |m| < |n| ==> m + Pad(|m|) != n + Pad(|n|)
  {
    var p, q := m + Pad(|m|), n + Pad(|n|);
    if |m| < |n| && |p| == |q| {
      assert q[|n|] == Pad(|n|)[0];
      assert p[|n|] == Pad(|m|)[|n| - |m|];
    }
  }

  /** A padded message determines the message. */
  lemma PadInjective(m: seq<bool>, n: seq<bool>)
    requires m + Pad(|m|) == n + Pad(|n|)
    ensures m == n
  {
    LongerDiffers(m, n);
    LongerDiffers(n, m);
    assert m == (m + Pad(|m|))[..|m|];
    assert n == (n + Pad(|n|))[..|n|];
  }

  /** Blocks may be absorbed in two goes. */
  lemma {:induction false} AbsorbAppend(s: State, p: seq<bool>, q: seq<bool>)
    requires |p| % RATE == 0 && |q| % RATE == 0
    ensures Absorb(s, p + q) == Absorb(Absorb(s, p), q)
    decreases |p|
  {
    if p == [] {
      assert p + q == q;
    } else {
      assert |p| >= RATE;
      assert (p + q)[..RATE] == p[..RATE] && (p + q)[RATE..] == p[RATE..] + q;
      AbsorbAppend(KeccakF(XorBlock(s, p[..RATE])), p[RATE..], q);
    }
  }
}
