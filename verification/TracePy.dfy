/**
 `keccak_f`, `absorb_block` and `keccak_256` of packages/trace/python/trace.py, with the
 lanes updated in place.
 */
module TracePy {
  import opened PyInts
  import opened Fips202
  import opened KeccakTables
  import opened KeccakLanes

  const RATE_BYTES := 136

  type Byte = b: int | 0 <= b < 256

  // ----- keccak_f

  /** Lane `i` comes before lane x + 5 y in the order of the loops over x and, inside, y. */
  predicate Done(i: int, x: int, y: int) {
    i % 5 < x || (i % 5 == x && i / 5 < y)
  }

  lemma DoneSteps(x: int, y: int)
    requires 0 <= x < 5 && 0 <= y < 5
    ensures forall i :: 0 <= i < 25 ==> (Done(i, x, y + 1) <==> Done(i, x, y) || i == x + 5 * y)
  {
    forall i | 0 <= i < 25
      ensures Done(i, x, y + 1) <==> Done(i, x, y) || i == x + 5 * y
    {
      DivMod5(i, i / 5, i % 5);
    }
  }

  lemma DoneRow(x: int)
    ensures forall i :: 0 <= i < 25 ==> (Done(i, x, 5) <==> Done(i, x + 1, 0))
    ensures forall i :: 0 <= i < 25 ==> !Done(i, 0, 0) && Done(i, 5, 0)
  {
  }

  /** The lists c and d of trace.py:146-153. */
  method ThetaEffects(state: array<int>) returns (d: seq<int>)
    requires state.Length == 25
    ensures |d| == 5 && forall x :: 0 <= x < 5 ==> d[x] == EffectLane(state[..], x)
  {
    hide Xor, Rotl64, ParityLane, EffectLane;
    ghost var s := state[..];
    var c := seq(5, x requires 0 <= x < 5 reads state =>
      Xor(Xor(Xor(Xor(state[x], state[x + 5]), state[x + 10]), state[x + 15]), state[x + 20]));
    forall x | 0 <= x < 5
      ensures c[x] == ParityLane(s, x)
    {
      ThetaParts(s, x);
    }
    d := seq(5, x requires 0 <= x < 5 => Xor(c[(x - 1) % 5], Rotl64(c[(x + 1) % 5], 1)));
    forall x | 0 <= x < 5
      ensures d[x] == EffectLane(s, x)
    {
      ThetaParts(s, x);
    }
  }

  method ThetaStep(state: array<int>)
    requires state.Length == 25
    modifies state
    ensures state[..] == ThetaLanes(old(state[..]))
  {
    hide Done, Xor, And, EffectLane, MASK_64;
    ghost var s := state[..];
    var d := ThetaEffects(state);
    ghost var t := ThetaLanes(s);
    hide ThetaLanes;
    DoneRow(0);
    for x := 0 to 5
      invariant forall i :: 0 <= i < 25 ==> state[i] == if Done(i, x, 0) then t[i] else s[i]
    {
      for y := 0 to 5
        invariant forall i :: 0 <= i < 25 ==> state[i] == if Done(i, x, y) then t[i] else s[i]
      {
        var index := x + 5 * y;
        DoneSteps(x, y);
        NotYetDone(x, y);
        ThetaLanesEntry(s, index);
        state[index] := And(Xor(state[index], d[x]), MASK_64);
      }
      DoneRow(x);
    }
  }

  lemma ThetaLanesEntry(s: seq<int>, i: int)
    requires |s| == 25 && 0 <= i < 25
    ensures ThetaLanes(s)[i] == And(Xor(s[i], EffectLane(s, i % 5)), MASK_64)
  {
    hide And, Xor, EffectLane, MASK_64;
  }

  lemma NotYetDone(x: int, y: int)
    requires 0 <= x < 5 && 0 <= y < 5
    ensures (x + 5 * y) % 5 == x && !Done(x + 5 * y, x, y)
  {
    DivMod5(x + 5 * y, y, x);
  }

  method RhoPiStep(state: array<int>) returns (b: array<int>)
    requires state.Length == 25
    ensures fresh(b) && b.Length == 25 && b[..] == RhoPiLanes(state[..])
  {
    hide Rotl64, RhoPiLanes, SourceLane, TargetLane, Moved, ROTATION_OFFSETS;
    RhoPiEntry(state[..], 0, 0);
    MovedAll();
    b := new int[25](_ => 0);
    for x := 0 to 5
      invariant forall j :: 0 <= j < 25 && Moved(j, x, 0) ==> b[j] == RhoPiLanes(state[..])[j]
    {
      for y := 0 to 5
        invariant forall j :: 0 <= j < 25 && Moved(j, x, y) ==> b[j] == RhoPiLanes(state[..])[j]
      {
        var index := x + 5 * y;
        var targetX := y;
        var targetY := (2 * x + 3 * y) % 5;
        RhoPiEntry(state[..], x, y);
        MovedSteps(x, y);
        b[targetX + 5 * targetY] := Rotl64(state[index], ROTATION_OFFSETS[index]);
      }
      MovedRow(x);
    }
    MovedAll();
  }

  /** The loops have filled lane `j` when they are about to handle (x, y). */
  predicate Moved(j: int, x: int, y: int)
    requires 0 <= j < 25
  {
    SourceLane(j) % 5 < x || (SourceLane(j) % 5 == x && SourceLane(j) / 5 < y)
  }

  lemma MovedSteps(x: int, y: int)
    requires 0 <= x < 5 && 0 <= y < 5
    ensures 0 <= TargetLane(x, y) < 25
    ensures forall j :: 0 <= j < 25 ==> (Moved(j, x, y + 1) <==> Moved(j, x, y) || j == TargetLane(x, y))
  {
    hide TargetLane, SourceLane;
    SourceOfTarget(x, y);
    forall j | 0 <= j < 25
      ensures Moved(j, x, y + 1) <==> Moved(j, x, y) || j == TargetLane(x, y)
    {
      SourceIs(j, x, y);
    }
  }

  lemma SourceIs(j: int, x: int, y: int)
    requires 0 <= j < 25 && 0 <= x < 5 && 0 <= y < 5
    ensures j == TargetLane(x, y) <==> SourceLane(j) % 5 == x && SourceLane(j) / 5 == y
  {
    hide TargetLane, SourceLane;
    TargetOfSource(j);
    SourceOfTarget(x, y);
    DivMod5(x + 5 * y, y, x);
  }

  lemma MovedRow(x: int)
    requires 0 <= x < 5
    ensures forall j :: 0 <= j < 25 ==> (Moved(j, x, 5) <==> Moved(j, x + 1, 0))
  {
    forall j | 0 <= j < 25
      ensures Moved(j, x, 5) <==> Moved(j, x + 1, 0)
    {
      TargetOfSource(j);
    }
  }

  lemma MovedAll()
    ensures forall j :: 0 <= j < 25 ==> Moved(j, 5, 0) && !Moved(j, 0, 0)
  {
    forall j | 0 <= j < 25
      ensures Moved(j, 5, 0) && !Moved(j, 0, 0)
    {
      TargetOfSource(j);
    }
  }

  lemma RhoPiEntry(s: seq<int>, x: int, y: int)
    requires |s| == 25 && 0 <= x < 5 && 0 <= y < 5
    ensures TargetLane(x, y) == y + 5 * ((2 * x + 3 * y) % 5) && 0 <= TargetLane(x, y) < 25
    ensures |ROTATION_OFFSETS| == 25 && |RhoPiLanes(s)| == 25
    ensures RhoPiLanes(s)[TargetLane(x, y)] == Rotl64(s[x + 5 * y], ROTATION_OFFSETS[x + 5 * y])
  {
    Sizes();
    hide Rotl64, ROTATION_OFFSETS;
    SourceOfTarget(x, y);
  }

  method ChiStep(state: array<int>, b: array<int>)
    requires state.Length == 25 && b.Length == 25 && state != b
    modifies state
    ensures state[..] == ChiLanes(b[..])
  {
    ghost var t := ChiLanes(b[..]);
    DoneRow(0);
    hide Done;
    for x := 0 to 5
      invariant forall i :: 0 <= i < 25 && Done(i, x, 0) ==> state[i] == t[i]
    {
      for y := 0 to 5
        invariant forall i :: 0 <= i < 25 && Done(i, x, y) ==> state[i] == t[i]
      {
        var index := x + 5 * y;
        DoneSteps(x, y);
        ChiLanesEntry(b[..], x, y);
        state[index] := And(Xor(b[index], And(And(Not(b[(x + 1) % 5 + 5 * y]), MASK_64), b[(x + 2) % 5 + 5 * y])),
                            MASK_64);
      }
      DoneRow(x);
    }
  }

  lemma ChiLanesEntry(b: seq<int>, x: int, y: int)
    requires |b| == 25 && 0 <= x < 5 && 0 <= y < 5
    ensures ChiLanes(b)[x + 5 * y] ==
            And(Xor(b[x + 5 * y], And(And(Not(b[(x + 1) % 5 + 5 * y]), MASK_64), b[(x + 2) % 5 + 5 * y])), MASK_64)
  {
    hide And, Xor, Not, MASK_64;
    RowNeighbourOf(x, y, 1);
    RowNeighbourOf(x, y, 2);
  }

  /** One pass of the loop of trace.py:145-177. */
  method RoundInPlace(state: array<int>, r: nat)
    requires state.Length == 25 && Lanes(state[..]) && r < 24
    modifies state
    ensures Lanes(state[..])
    ensures StateOf(state[..]) == Round(old(StateOf(state[..])), r)
  {
    hide Lanes, StateOf, Theta, Rho, Pi, Chi, Iota, ThetaLanes, RhoPiLanes, ChiLanes, Xor, And, MASK_64;
    Sizes();
    hide ROUND_CONSTANTS;
    ThetaLanesCorrect(state[..]);
    ThetaStep(state);
    RhoPiLanesCorrect(state[..]);
    var b := RhoPiStep(state);
    ChiLanesCorrect(b[..]);
    ChiStep(state, b);
    ghost var s := state[..];
    IotaLanesCorrect(s, r);
    state[0] := Xor(state[0], ROUND_CONSTANTS[r]);
    state[0] := And(state[0], MASK_64);
    assert state[..] == IotaLanes(s, r);
  }

  /** The permutation, in place: Keccak-f on the bits of the lanes, and the lanes stay 64 bits wide. */
  method KeccakFInPlace(state: array<int>)
    requires state.Length == 25 && Lanes(state[..])
    modifies state
    ensures Lanes(state[..])
    ensures StateOf(state[..]) == KeccakF(old(StateOf(state[..])))
  {
    ghost var a := StateOf(state[..]);
    hide Lanes, StateOf, Round;
    for r := 0 to 24
      invariant Lanes(state[..]) && StateOf(state[..]) == Rounds(a, r)
    {
      RoundInPlace(state, r);
    }
  }

  // ----- absorb_block

  /** The bit string of a byte string: bit 0 of every byte first (appendix B.1 of FIPS 202). */
  function BitsOf(bytes: seq<Byte>): (bits: seq<bool>)
    ensures |bits| == 8 * |bytes|
  {
    seq(8 * |bytes|, k requires 0 <= k < 8 * |bytes| => Bit(bytes[k / 8], k % 8))
  }

  lemma BitsOfAppend(a: seq<Byte>, b: seq<Byte>)
    ensures BitsOf(a + b) == BitsOf(a) + BitsOf(b)
  {
    hide Bit;
    forall k | 0 <= k < 8 * |a + b|
      ensures BitsOf(a + b)[k] == (BitsOf(a) + BitsOf(b))[k]
    {
      if k >= 8 * |a| {
        var j := k - 8 * |a|;
        assert k / 8 == |a| + j / 8 && k % 8 == j % 8;
      }
    }
  }

  lemma ByteFits(b: Byte)
    ensures Fits(b, 8)
  {
    assert Shl(1, 8) == 256;
  }

  /** Absorbing one byte sets bits 8 index .. 8 index + 7 of the state string. */
  lemma AbsorbByte(s: seq<int>, bytes: seq<Byte>, index: nat, a: State)
    requires Lanes(s) && index < |bytes| <= 200
    requires StateOf(s) == XorBlock(a, BitsOf(bytes[..index]))
    ensures var lane := index / 8;
            var t := s[lane := And(Xor(s[lane], Shl(bytes[index], 8 * (index % 8))), MASK_64)];
            Lanes(t) && StateOf(t) == XorBlock(a, BitsOf(bytes[..index + 1]))
  {
    hide Bit, Xor, And, Shl, MASK_64, Fits;
    var lane, shift := index / 8, 8 * (index % 8);
    var v := And(Xor(s[lane], Shl(bytes[index], shift)), MASK_64);
    var t := s[lane := v];
    AbsorbedLaneFits(s[lane], Shl(bytes[index], shift));
    var before, after := XorBlock(a, BitsOf(bytes[..index])), XorBlock(a, BitsOf(bytes[..index + 1]));
    forall k | 0 <= k < 1600
      ensures StateOf(t)[k] == after[k]
    {
      assert before[k] == StateOf(s)[k] == Bit(s[k / 64], k % 64);
      if k / 64 == lane {
        AbsorbedBit(s[lane], bytes[index], index, k);
      }
      PrefixBit(bytes, index, k);
    }
  }

  lemma AbsorbedLaneFits(lane: int, v: int)
    ensures Fits(And(Xor(lane, v), MASK_64), 64)
  {
    MaskFits(Xor(lane, v), 64);
  }

  lemma AbsorbedBit(lane: int, byte: Byte, index: nat, k: nat)
    requires k / 64 == index / 8
    ensures Bit(And(Xor(lane, Shl(byte, 8 * (index % 8))), MASK_64), k % 64) ==
            (Bit(lane, k % 64) != (k / 8 == index && Bit(byte, k % 8)))
  {
    hide Bit, Xor, And, Shl, MASK_64, Fits;
    var z, shift := k % 64, 8 * (index % 8);
    BitOfMasked(Xor(lane, Shl(byte, shift)), z);
    BitOfXor(lane, Shl(byte, shift), z);
    BitOfShl(byte, shift, z);
    ByteFits(byte);
    if shift <= z && k / 8 != index {
      NoHighBits(byte, 8, z - shift);
    }
  }

  lemma PrefixBit(bytes: seq<Byte>, index: nat, k: nat)
    requires index < |bytes|
    ensures (k < 8 * index + 8 && BitsOf(bytes[..index + 1])[k]) ==
            if k / 8 == index then Bit(bytes[index], k % 8) else k < 8 * index && BitsOf(bytes[..index])[k]
  {
    hide Bit;
  }

  method AbsorbBlock(state: array<int>, block: seq<Byte>)
    requires state.Length == 25 && Lanes(state[..]) && |block| <= 200
    modifies state
    ensures Lanes(state[..])
    ensures StateOf(state[..]) == XorBlock(old(StateOf(state[..])), BitsOf(block))
  {
    hide Lanes, Xor, And, Shl, MASK_64;
    ghost var a := StateOf(state[..]);
    assert XorBlock(a, BitsOf(block[..0])) == a;
    for index := 0 to |block|
      invariant Lanes(state[..]) && StateOf(state[..]) == XorBlock(a, BitsOf(block[..index]))
    {
      AbsorbByte(state[..], block, index, a);
      LowByte(block[index]);
      ghost var s := state[..];
      var lane := index / 8;
      var shift := 8 * (index % 8);
      state[lane] := Xor(state[lane], Shl(And(block[index], 0xFF), shift));
      state[lane] := And(state[lane], MASK_64);
      assert state[..] == s[lane := And(Xor(s[lane], Shl(block[index], shift)), MASK_64)];
    }
    assert block[..|block|] == block;
  }

  /** `byte & 0xFF` is the byte. */
  lemma LowByte(b: Byte)
    ensures And(b, 0xFF) == b
  {
    assert Ones(8) == 0xFF;
    ByteFits(b);
    MaskFits(b, 8);
    forall i: nat | i < 8
      ensures Bit(And(b, 0xFF), i) == Bit(b, i)
    {
      BitOfAnd(b, 0xFF, i);
      BitOfOnes(8, i);
    }
    SameBits(And(b, 0xFF), b, 8);
  }

  // ----- keccak_256

  /** A tail shorter than a block, with the bytes lines 115-120 of trace.py add to it. */
  function PaddedTail(rest: seq<Byte>): (tail: seq<Byte>)
    requires |rest| < RATE_BYTES
    ensures |tail| == RATE_BYTES
  {
    ByteXorFits(0, 0x80);
    ByteXorFits(1, 0x80);
    seq(RATE_BYTES, i requires 0 <= i < RATE_BYTES =>
      if i < |rest| then rest[i] else PadByte(i, |rest|))
  }

  function PadByte(i: int, start: int): Byte {
    ByteXorFits(0, 0x80);
    ByteXorFits(1, 0x80);
    var b := if i == start then 1 else 0;
    if i == RATE_BYTES - 1 then Xor(b, 0x80) else b
  }

  lemma ByteXorFits(a: Byte, b: Byte)
    ensures 0 <= Xor(a, b) < 256
  {
    ByteFits(a);
    XorFits(a, b, 8);
    assert Shl(1, 8) == 256;
  }

  lemma PadByteBits(i: int, start: int, j: nat)
    requires j < 8
    ensures Bit(PadByte(i, start), j) == ((i == start && j == 0) || (i == RATE_BYTES - 1 && j == 7))
  {
    var b := if i == start then 1 else 0;
    BitOfXor(b, 0x80, j);
    BitOfSign(0, j);
    BitOfSign(0, 0);
    OneBits(j);
    TopBits(j);
  }

  lemma OneBits(j: nat)
    requires j < 8
    ensures Bit(1, j) == (j == 0)
  {
    if j > 0 {
      BitOfSign(0, j - 1);
    }
  }

  lemma TopBits(j: nat)
    requires j < 8
    ensures Bit(0x80, j) == (j == 7)
  {
    assert !Bit(0x80, 0) && !Bit(0x80, 1) && !Bit(0x80, 2) && !Bit(0x80, 3);
    assert !Bit(0x80, 4) && !Bit(0x80, 5) && !Bit(0x80, 6) && Bit(0x80, 7);
  }

  lemma PadBits(m: nat, i: nat)
    requires i < |Pad(m)|
    ensures Pad(m)[i] == (i == 0 || i == |Pad(m)| - 1)
  {
  }

  lemma PadFillsBlock(m: nat, r: nat)
    requires r < RATE - 1 && m % RATE == r
    ensures |Pad(m)| == RATE - r
  {
    var q := m / RATE;
    assert -(m as int) - 2 == RATE * (-q - 1) + (RATE - 2 - r);
  }

  /** The bytes added are the bits pad10*1 adds to a message ending in `rest`. */
  lemma PaddedTailBits(rest: seq<Byte>, m: nat)
    requires |rest| < RATE_BYTES && m % RATE == 8 * |rest|
    ensures BitsOf(PaddedTail(rest)) == BitsOf(rest) + Pad(m)
  {
    PadFillsBlock(m, 8 * |rest|);
    hide Bit, PadByte, Pad;
    var tail := PaddedTail(rest);
    forall k | 0 <= k < RATE
      ensures BitsOf(tail)[k] == (BitsOf(rest) + Pad(m))[k]
    {
      if k >= 8 * |rest| {
        PadByteBits(k / 8, |rest|, k % 8);
        PadBits(m, k - 8 * |rest|);
      }
    }
  }

  lemma ZeroState(s: seq<int>)
    requires |s| == 25 && forall i :: 0 <= i < 25 ==> s[i] == 0
    ensures Lanes(s) && StateOf(s) == Zero()
  {
    forall k | 0 <= k < 1600
      ensures !StateOf(s)[k]
    {
      BitOfSign(0, k % 64);
    }
    assert Shl(1, 64) > 0 by { MaskFits(0, 64); }
  }

  /** One output byte: eight consecutive bits of the state string. */
  lemma OutputByte(s: seq<int>, index: nat)
    requires |s| == 25 && index < 200
    ensures var b := And(Shr(s[index / 8], 8 * (index % 8)), 0xFF);
            0 <= b < 256 && BitsOf([b]) == StateOf(s)[8 * index..8 * index + 8]
  {
    var lane, shift := index / 8, 8 * (index % 8);
    var b := And(Shr(s[lane], shift), 0xFF);
    assert Ones(8) == 0xFF;
    MaskFits(Shr(s[lane], shift), 8);
    forall j | 0 <= j < 8
      ensures Bit(b, j) == StateOf(s)[8 * index + j]
    {
      OutputBit(s, index, j);
    }
    assert forall j :: 0 <= j < 8 ==> BitsOf([b])[j] == Bit(b, j);
  }

  lemma OutputBit(s: seq<int>, index: nat, j: nat)
    requires |s| == 25 && index < 200 && j < 8
    ensures Bit(And(Shr(s[index / 8], 8 * (index % 8)), 0xFF), j) == StateOf(s)[8 * index + j]
  {
    hide Bit, And, Shr;
    var lane, shift := index / 8, 8 * (index % 8);
    assert Ones(8) == 0xFF;
    BitOfAnd(Shr(s[lane], shift), 0xFF, j);
    BitOfOnes(8, j);
    BitOfShr(s[lane], shift, j);
    assert (8 * index + j) / 64 == lane && (8 * index + j) % 64 == shift + j;
  }

  /** Absorbing the blocks as they come, then the padded tail, is the sponge over the padded message. */
  lemma Streaming(data: seq<Byte>, offset: nat)
    requires offset <= |data| < offset + RATE_BYTES && offset % RATE_BYTES == 0
    ensures var tail := PaddedTail(data[offset..]);
            var padded := BitsOf(data) + Pad(|BitsOf(data)|);
            |padded| % RATE == 0 && Absorb(Zero(), padded) == KeccakF(XorBlock(Absorbed(data, offset), BitsOf(tail)))
  {
    hide KeccakF, PaddedTail, Absorb, XorBlock, BitsOf, Pad;
    var front, rest := data[..offset], data[offset..];
    var tail := PaddedTail(rest);
    PaddedSplit(data, offset);
    AbsorbAppend(Zero(), BitsOf(front), BitsOf(tail));
    AbsorbOne(Absorb(Zero(), BitsOf(front)), BitsOf(tail));
  }

  /** The padded message is the whole blocks' bits followed by the padded tail's. */
  lemma PaddedSplit(data: seq<Byte>, offset: nat)
    requires offset <= |data| < offset + RATE_BYTES && offset % RATE_BYTES == 0
    ensures BitsOf(data) + Pad(|BitsOf(data)|) == BitsOf(data[..offset]) + BitsOf(PaddedTail(data[offset..]))
  {
    hide PaddedTail, Pad, BitsOf;
    var front, rest := data[..offset], data[offset..];
    assert data == front + rest;
    BitsOfAppend(front, rest);
    var m := |BitsOf(data)|;
    PaddedTailBits(rest, m);
  }

  lemma AbsorbOne(s: State, block: seq<bool>)
    requires |block| == RATE
    ensures Absorb(s, block) == KeccakF(XorBlock(s, block))
  {
    hide KeccakF;
    assert block[..RATE] == block && block[RATE..] == [];
    assert Absorb(KeccakF(XorBlock(s, block)), []) == KeccakF(XorBlock(s, block));
  }

  /** Lines 107-113: the whole blocks. */
  method AbsorbBlocks(state: array<int>, data: seq<Byte>) returns (offset: nat)
    requires state.Length == 25 && forall i :: 0 <= i < 25 ==> state[i] == 0
    modifies state
    ensures offset <= |data| < offset + RATE_BYTES && offset % RATE_BYTES == 0
    ensures Lanes(state[..])
    ensures StateOf(state[..]) == Absorb(Zero(), BitsOf(data[..offset]))
  {
    hide KeccakF, XorBlock, Lanes, StateOf, Absorbed;
    ZeroState(state[..]);
    NothingAbsorbed(data);
    offset := 0;
    while offset + RATE_BYTES <= |data|
      invariant 0 <= offset <= |data| && offset % RATE_BYTES == 0
      invariant Lanes(state[..])
      invariant StateOf(state[..]) == Absorbed(data, offset)
    {
      var block := data[offset..offset + RATE_BYTES];
      NextBlock(data, offset);
      AbsorbBlock(state, block);
      KeccakFInPlace(state);
      offset := offset + RATE_BYTES;
    }
    AbsorbedIs(data, offset);
  }

  /** The sponge state after the first `offset` bytes, whole blocks. */
  function Absorbed(data: seq<Byte>, offset: nat): State
    requires offset <= |data| && offset % RATE_BYTES == 0
  {
    Absorb(Zero(), BitsOf(data[..offset]))
  }

  lemma AbsorbedIs(data: seq<Byte>, offset: nat)
    requires offset <= |data| && offset % RATE_BYTES == 0
    ensures |BitsOf(data[..offset])| % RATE == 0 && Absorbed(data, offset) == Absorb(Zero(), BitsOf(data[..offset]))
  {
  }

  lemma NothingAbsorbed(data: seq<Byte>)
    ensures Absorbed(data, 0) == Zero()
  {
    hide KeccakF, XorBlock;
    assert BitsOf(data[..0]) == [];
  }

  lemma NextBlock(data: seq<Byte>, offset: nat)
    requires offset + RATE_BYTES <= |data| && offset % RATE_BYTES == 0
    ensures (offset + RATE_BYTES) % RATE_BYTES == 0
    ensures Absorbed(data, offset + RATE_BYTES) ==
            KeccakF(XorBlock(Absorbed(data, offset), BitsOf(data[offset..offset + RATE_BYTES])))
  {
    hide KeccakF, XorBlock;
    var block := data[offset..offset + RATE_BYTES];
    assert data[..offset + RATE_BYTES] == data[..offset] + block;
    BitsOfAppend(data[..offset], block);
    AbsorbAppend(Zero(), BitsOf(data[..offset]), BitsOf(block));
    AbsorbOne(Absorb(Zero(), BitsOf(data[..offset])), BitsOf(block));
  }

  /** Lines 115-120. The error of line 118 is unreachable. */
  method PadTail(rest: seq<Byte>) returns (tail: seq<Byte>)
    requires |rest| < RATE_BYTES
    ensures tail == PaddedTail(rest)
  {
    hide Xor, PaddedTail;
    tail := rest;
    tail := tail + [0x01];
    if |tail| > RATE_BYTES {
      assert false;
    }
    tail := tail + seq(RATE_BYTES - |tail|, _ => 0);
    ByteXorFits(tail[RATE_BYTES - 1], 0x80);
    tail := tail[RATE_BYTES - 1 := Xor(tail[RATE_BYTES - 1], 0x80)];
    TailIsPadded(rest, tail);
  }

  lemma TailIsPadded(rest: seq<Byte>, tail: seq<Byte>)
    requires |rest| < RATE_BYTES == |tail|
    requires var t := rest + [1] + seq(RATE_BYTES - 1 - |rest|, _ => 0);
             tail == t[RATE_BYTES - 1 := Xor(t[RATE_BYTES - 1], 0x80)]
    ensures tail == PaddedTail(rest)
  {
    hide Xor;
  }

  /** Lines 127-130: up to a rate of bytes, stopping when `length` is reached. */
  method SqueezeBlock(state: array<int>, before: seq<Byte>, length: nat) returns (out: seq<Byte>)
    requires state.Length == 25 && |before| < length
    ensures var n := if length - |before| < RATE_BYTES then length - |before| else RATE_BYTES;
            |out| == |before| + n && BitsOf(out) == BitsOf(before) + StateOf(state[..])[..8 * n]
  {
    hide And, Shr, StateOf, BitsOf;
    ghost var s := StateOf(state[..]);
    out := before;
    assert s[..0] == [];
    for index := 0 to RATE_BYTES
      invariant |out| == |before| + index < length
      invariant BitsOf(out) == BitsOf(before) + s[..8 * index]
    {
      OutputByte(state[..], index);
      var byte: Byte := And(Shr(state[index / 8], 8 * (index % 8)), 0xFF);
      BitsOfAppend(out, [byte]);
      assert s[..8 * index] + s[8 * index..8 * index + 8] == s[..8 * (index + 1)];
      out := out + [byte];
      if |out| == length {
        return;
      }
    }
  }

  /**
   Lines 125-131, for any number of bytes: the rate part of the state, and a fresh
   permutation every time it is used up. The source asks for 32 and never permutes again.
   */
  method SqueezeBytes(state: array<int>, length: nat) returns (out: seq<Byte>)
    requires state.Length == 25 && Lanes(state[..])
    modifies state
    ensures |out| == length
    ensures BitsOf(out) == Squeeze(old(StateOf(state[..])), 8 * length)
  {
    hide StateOf, BitsOf, Lanes, KeccakF, Squeeze;
    ghost var z := Squeeze(StateOf(state[..]), 8 * length);
    out := [];
    assert |BitsOf([])| == 0;
    while |out| < length
      invariant |out| <= length && Lanes(state[..])
      invariant BitsOf(out) + Squeeze(StateOf(state[..]), 8 * (length - |out|)) == z
      decreases length - |out|
    {
      SqueezeSteps(StateOf(state[..]), 8 * (length - |out|));
      out := SqueezeBlock(state, out, length);
      if |out| == length {
        return;
      }
      KeccakFInPlace(state);
    }
  }

  lemma SqueezeSteps(s: State, d: nat)
    ensures Squeeze(s, d) == if d <= RATE then s[..d] else s[..RATE] + Squeeze(KeccakF(s), d - RATE)
  {
    hide KeccakF;
  }

  /** keccak_256: 32 bytes whose bits are KECCAK[512](data, 256). */
  method Keccak256(data: seq<Byte>) returns (out: seq<Byte>)
    ensures |out| == 32
    ensures BitsOf(out) == Keccak512(BitsOf(data), 256)
  {
    var state := new int[25](_ => 0);
    var offset := AbsorbBlocks(state, data);
    var tail := PadTail(data[offset..]);
    AbsorbedIs(data, offset);
    Streaming(data, offset);
    hide KeccakF, XorBlock, Lanes, StateOf, PaddedTail, BitsOf;
    AbsorbBlock(state, tail);
    KeccakFInPlace(state);
    out := SqueezeBytes(state, 32);
  }
}
