/**
 64-bit words and their bits.
 */
module Words64 {
  import opened PyInts

  type Word = bv64

  function Half(w: Word): Word {
    w >> 1
  }

  predicate Low(w: Word) {
    w & 1 == 1
  }

  function XorWord(a: Word, b: Word): Word {
    a ^ b
  }

  function AndWord(a: Word, b: Word): Word {
    a & b
  }

  function NotWord(a: Word): Word {
    !a
  }

  const ALL: Word := 0xFFFF_FFFF_FFFF_FFFF

  predicate WordBit(w: Word, i: nat)
    decreases i
  {
    if i == 0 then Low(w) else WordBit(Half(w), i - 1)
  }

  // ----- bits of each operation

  lemma XorParts(a: Word, b: Word)
    ensures Half(XorWord(a, b)) == XorWord(Half(a), Half(b))
    ensures Low(XorWord(a, b)) == (Low(a) != Low(b))
  {
  }

  lemma AndParts(a: Word, b: Word)
    ensures Half(AndWord(a, b)) == AndWord(Half(a), Half(b))
    ensures Low(AndWord(a, b)) == (Low(a) && Low(b))
  {
  }

  lemma {:induction false} BitOfXorWord(a: Word, b: Word, i: nat)
    ensures WordBit(XorWord(a, b), i) == (WordBit(a, i) != WordBit(b, i))
    decreases i
  {
    hide XorWord, Half, Low;
    XorParts(a, b);
    if i > 0 {
      BitOfXorWord(Half(a), Half(b), i - 1);
    }
  }

  lemma {:induction false} BitOfAndWord(a: Word, b: Word, i: nat)
    ensures WordBit(AndWord(a, b), i) == (WordBit(a, i) && WordBit(b, i))
    decreases i
  {
    hide AndWord, Half, Low;
    AndParts(a, b);
    if i > 0 {
      BitOfAndWord(Half(a), Half(b), i - 1);
    }
  }

  lemma ZeroParts()
    ensures Half(0) == 0 && !Low(0)
  {
  }

  lemma {:induction false} BitOfZero(i: nat)
    ensures !WordBit(0, i)
    decreases i
  {
    ZeroParts();
    hide Half, Low;
    if i > 0 {
      BitOfZero(i - 1);
    }
  }

  // ----- eight places at a time

  function Drop(w: Word): Word {
    w >> 8
  }

  lemma EightHalves(w: Word)
    ensures Half(Half(Half(Half(Half(Half(Half(Half(w)))))))) == Drop(w)
  {
  }

  lemma DropBit(w: Word, i: nat)
    ensures WordBit(w, i + 8) == WordBit(Drop(w), i)
  {
    EightHalves(w);
    hide Half, Low, Drop;
    var w2 := Half(Half(w));
    var w4 := Half(Half(w2));
    var w6 := Half(Half(w4));
    assert WordBit(w, i + 8) == WordBit(Half(w), i + 7) == WordBit(w2, i + 6);
    assert WordBit(w2, i + 6) == WordBit(Half(w2), i + 5) == WordBit(w4, i + 4);
    assert WordBit(w4, i + 4) == WordBit(Half(w4), i + 3) == WordBit(w6, i + 2);
    assert WordBit(w6, i + 2) == WordBit(Half(w6), i + 1) == WordBit(Half(Half(w6)), i);
  }

  // ----- the word of ones, and complement

  /** The lowest n bits are ones. */
  predicate Full(w: Word, n: nat) {
    n == 0 || (Low(w) && Full(Half(w), n - 1))
  }

  lemma {:induction false} BitOfFull(w: Word, n: nat, i: nat)
    requires Full(w, n) && i < n
    ensures WordBit(w, i)
    decreases n
  {
    hide Half, Low;
    if i > 0 {
      BitOfFull(Half(w), n - 1, i - 1);
    }
  }

  lemma OnesByte(w: Word)
    ensures w & 0xFF == 0xFF ==>
      Low(w) && Low(Half(w)) && Low(Half(Half(w))) && Low(Half(Half(Half(w)))) && Low(Half(Half(Half(Half(w)))))
    ensures w & 0xFF == 0xFF ==>
      Low(Half(Half(Half(Half(Half(w)))))) && Low(Half(Half(Half(Half(Half(Half(w))))))) &&
      Low(Half(Half(Half(Half(Half(Half(Half(w))))))))
  {
  }

  lemma FullByte(w: Word, n: nat)
    requires w & 0xFF == 0xFF && Full(Drop(w), n)
    ensures Full(w, n + 8)
  {
    OnesByte(w);
    EightHalves(w);
    hide Half, Low, Drop;
    var w4 := Half(Half(Half(Half(w))));
    assert Full(w4, n + 4) by {
      var w6 := Half(Half(w4));
      assert Full(w6, n + 2);
      assert Full(Half(w4), n + 3);
    }
    assert Full(Half(Half(w)), n + 6);
  }

  lemma BitOfAll(i: nat)
    requires i < 64
    ensures WordBit(ALL, i)
  {
    AllIsFull();
    BitOfFull(ALL, 64, i);
  }

  lemma AllIsFull()
    ensures Full(ALL, 64)
  {
    AllDrops();
    hide Full, Drop;
    FullNothing();
    FullByte(0xFF, 0);
    FullByte(0xFFFF, 8);
    FullByte(0xFF_FFFF, 16);
    FullByte(0xFFFF_FFFF, 24);
    FullByte(0xFF_FFFF_FFFF, 32);
    FullByte(0xFFFF_FFFF_FFFF, 40);
    FullByte(0xFF_FFFF_FFFF_FFFF, 48);
    FullByte(0xFFFF_FFFF_FFFF_FFFF, 56);
  }

  lemma FullNothing()
    ensures Full(0, 0)
  {
  }

  lemma AllDrops()
    ensures Drop(0xFF) == 0 && Drop(0xFFFF) == 0xFF && Drop(0xFF_FFFF) == 0xFFFF && Drop(0xFFFF_FFFF) == 0xFF_FFFF
    ensures Drop(0xFF_FFFF_FFFF) == 0xFFFF_FFFF && Drop(0xFFFF_FFFF_FFFF) == 0xFF_FFFF_FFFF
    ensures Drop(0xFF_FFFF_FFFF_FFFF) == 0xFFFF_FFFF_FFFF && Drop(ALL) == 0xFF_FFFF_FFFF_FFFF
  {
  }

  lemma NotIsXor(a: Word)
    ensures NotWord(a) == XorWord(a, ALL)
  {
  }

  lemma BitOfNotWord(a: Word, i: nat)
    requires i < 64
    ensures WordBit(NotWord(a), i) == !WordBit(a, i)
  {
    NotIsXor(a);
    hide NotWord, XorWord, WordBit;
    BitOfXorWord(a, ALL, i);
    BitOfAll(i);
  }

  // ----- rotation

  function Rot1(w: Word): Word {
    (w << 1) | (w >> 63)
  }

  function Top(w: Word): Word {
    w >> 63
  }

  lemma Rot1Parts(w: Word)
    ensures Half(Rot1(w)) == AndWord(w, Half(ALL))
    ensures Low(Rot1(w)) == Low(Top(w))
  {
  }

  lemma SevenBytes(w: Word)
    ensures Half(Half(Half(Half(Half(Half(Half(Drop(Drop(Drop(Drop(Drop(Drop(Drop(w)))))))))))))) == Top(w)
  {
  }

  lemma BitOfTop(w: Word)
    ensures WordBit(w, 63) == Low(Top(w))
  {
    SevenBytes(w);
    hide Half, Low, Drop, Top;
    DropBit(w, 55);
    DropBit(Drop(w), 47);
    DropBit(Drop(Drop(w)), 39);
    DropBit(Drop(Drop(Drop(w))), 31);
    DropBit(Drop(Drop(Drop(Drop(w)))), 23);
    DropBit(Drop(Drop(Drop(Drop(Drop(w))))), 15);
    DropBit(Drop(Drop(Drop(Drop(Drop(Drop(w)))))), 7);
    SeventhBit(Drop(Drop(Drop(Drop(Drop(Drop(Drop(w))))))));
  }

  lemma SeventhBit(w: Word)
    ensures WordBit(w, 7) == Low(Half(Half(Half(Half(Half(Half(Half(w))))))))
  {
    hide Half, Low;
    assert WordBit(w, 7) == WordBit(Half(Half(w)), 5);
    assert WordBit(Half(Half(w)), 5) == WordBit(Half(Half(Half(Half(w)))), 3);
    assert WordBit(Half(Half(Half(Half(w)))), 3) == WordBit(Half(Half(Half(Half(Half(Half(w)))))), 1);
  }

  lemma BitOfRot1(w: Word, z: nat)
    requires z < 64
    ensures WordBit(Rot1(w), z) == WordBit(w, if z == 0 then 63 else z - 1)
  {
    Rot1Parts(w);
    hide Half, Low, Rot1, Top, AndWord;
    if z == 0 {
      BitOfTop(w);
    } else {
      BitOfAndWord(w, Half(ALL), z - 1);
      BitOfAll(z);
    }
  }

  function RotBy(w: Word, r: nat): Word {
    if r == 0 then w else Rot1(RotBy(w, r - 1))
  }

  lemma {:induction false} BitOfRotBy(w: Word, r: nat, z: nat)
    requires z < 64
    ensures WordBit(RotBy(w, r), z) == WordBit(w, (z - r) % 64)
  {
    hide WordBit, Rot1;
    if r > 0 {
      BitOfRot1(RotBy(w, r - 1), z);
      var y := if z == 0 then 63 else z - 1;
      BitOfRotBy(w, r - 1, y);
      assert (y - (r - 1)) % 64 == (z - r) % 64;
    }
  }

  lemma {:induction false} RotTwice(w: Word, r: nat, q: nat)
    ensures RotBy(RotBy(w, r), q) == RotBy(w, r + q)
    decreases q
  {
    hide Rot1;
    if q > 0 {
      RotTwice(w, r, q - 1);
    }
  }

  function Rot2(w: Word): Word {
    (w << 2) | (w >> 62)
  }

  function Rot4(w: Word): Word {
    (w << 4) | (w >> 60)
  }

  function Rot8(w: Word): Word {
    (w << 8) | (w >> 56)
  }

  function Rot16(w: Word): Word {
    (w << 16) | (w >> 48)
  }

  function Rot32(w: Word): Word {
    (w << 32) | (w >> 32)
  }

  lemma Doubles2(w: Word)
    ensures Rot1(Rot1(w)) == Rot2(w)
  {
  }

  lemma Doubles4(w: Word)
    ensures Rot2(Rot2(w)) == Rot4(w)
  {
  }

  lemma Doubles8(w: Word)
    ensures Rot4(Rot4(w)) == Rot8(w)
  {
  }

  lemma Doubles16(w: Word)
    ensures Rot8(Rot8(w)) == Rot16(w)
  {
  }

  lemma Doubles32(w: Word)
    ensures Rot16(Rot16(w)) == Rot32(w)
  {
  }

  lemma Powers(w: Word)
    ensures Rot1(w) == RotBy(w, 1) && Rot2(w) == RotBy(w, 2) && Rot4(w) == RotBy(w, 4)
  {
    hide Rot1, Rot2, Rot4;
    assert RotBy(w, 1) == Rot1(w);
    Doubles2(w);
    assert RotBy(w, 2) == Rot1(RotBy(w, 1));
    var v := Rot2(w);
    Doubles4(w);
    Doubles2(v);
    assert RotBy(v, 1) == Rot1(v) && RotBy(v, 2) == Rot1(RotBy(v, 1));
    RotTwice(w, 2, 2);
  }

  lemma HigherPowers(w: Word)
    ensures Rot8(w) == RotBy(w, 8) && Rot16(w) == RotBy(w, 16) && Rot32(w) == RotBy(w, 32)
  {
    hide Rot1, Rot2, Rot4, Rot8, Rot16, Rot32, RotBy;
    IsRot8(w);
    IsRot8(Rot8(w));
    Doubles16(w);
    RotTwice(w, 8, 8);
    IsRot16(Rot16(w));
    Doubles32(w);
    RotTwice(w, 16, 16);
  }

  lemma IsRot8(w: Word)
    ensures Rot8(w) == RotBy(w, 8)
  {
    hide Rot1, Rot2, Rot4, Rot8, RotBy;
    Powers(w);
    Powers(Rot4(w));
    Doubles8(w);
    RotTwice(w, 4, 4);
  }

  lemma IsRot16(w: Word)
    ensures Rot16(w) == RotBy(w, 16)
  {
    hide Rot8, Rot16, RotBy;
    IsRot8(w);
    IsRot8(Rot8(w));
    Doubles16(w);
    RotTwice(w, 8, 8);
  }

  // rotation by r, a power of two at a time

  function Turn1(w: Word, r: nat): Word {
    if r >= 1 then Rot1(w) else w
  }

  function Turn2(w: Word, r: nat): Word {
    if r >= 2 then Turn1(Rot2(w), r - 2) else Turn1(w, r)
  }

  function Turn4(w: Word, r: nat): Word {
    if r >= 4 then Turn2(Rot4(w), r - 4) else Turn2(w, r)
  }

  function Turn8(w: Word, r: nat): Word {
    if r >= 8 then Turn4(Rot8(w), r - 8) else Turn4(w, r)
  }

  function Turn16(w: Word, r: nat): Word {
    if r >= 16 then Turn8(Rot16(w), r - 16) else Turn8(w, r)
  }

  function Turn(w: Word, r: nat): Word {
    if r >= 32 then Turn16(Rot32(w), r - 32) else Turn16(w, r)
  }

  lemma Turn2Is(w: Word, r: nat)
    requires r < 4
    ensures Turn2(w, r) == RotBy(w, r)
  {
    hide Rot1, Rot2, RotBy;
    var w2, r2 := if r >= 2 then Rot2(w) else w, if r >= 2 then r - 2 else r;
    Powers(w);
    Powers(w2);
    RotTwice(w, 2, r2);
    RotNothing(w2);
  }

  lemma Turn4Is(w: Word, r: nat)
    requires r < 8
    ensures Turn4(w, r) == RotBy(w, r)
  {
    hide Rot4, RotBy, Turn2;
    var w4, r4 := if r >= 4 then Rot4(w) else w, if r >= 4 then r - 4 else r;
    Powers(w);
    RotTwice(w, 4, r4);
    Turn2Is(w4, r4);
  }

  lemma TurnIsRotBy(w: Word, r: nat)
    requires r < 64
    ensures Turn(w, r) == RotBy(w, r)
  {
    hide Rot8, Rot16, Rot32, RotBy, Turn4;
    var w32, r32 := if r >= 32 then Rot32(w) else w, if r >= 32 then r - 32 else r;
    var w16, r16 := if r32 >= 16 then Rot16(w32) else w32, if r32 >= 16 then r32 - 16 else r32;
    var w8, r8 := if r16 >= 8 then Rot8(w16) else w16, if r16 >= 8 then r16 - 8 else r16;
    HigherPowers(w);
    HigherPowers(w32);
    HigherPowers(w16);
    RotTwice(w, 32, r32);
    RotTwice(w32, 16, r16);
    RotTwice(w16, 8, r8);
    Turn4Is(w8, r8);
  }

  lemma RotNothing(w: Word)
    ensures RotBy(w, 0) == w
  {
  }

  // ----- the integer a word stands for

  function IntFrom(w: Word, n: nat): int
    decreases n
  {
    if n == 0 then 0 else Digit(Low(w)) + 2 * IntFrom(Half(w), n - 1)
  }

  lemma {:induction false} BitOfIntFrom(w: Word, n: nat, i: nat)
    ensures Bit(IntFrom(w, n), i) == (i < n && WordBit(w, i))
    decreases n
  {
    hide Half, Low;
    if n == 0 {
      BitOfSign(0, i);
    } else {
      HalfOfDouble(IntFrom(Half(w), n - 1), Low(w));
      if i > 0 {
        BitOfIntFrom(Half(w), n - 1, i - 1);
      }
    }
  }

  /** The lowest byte of a word. */
  function ByteOf(w: Word): int {
    var w2 := Half(Half(w));
    var w4 := Half(Half(w2));
    var w6 := Half(Half(w4));
    Digit(Low(w)) + 2 * Digit(Low(Half(w))) + 4 * Digit(Low(w2)) + 8 * Digit(Low(Half(w2))) +
    16 * Digit(Low(w4)) + 32 * Digit(Low(Half(w4))) + 64 * Digit(Low(w6)) + 128 * Digit(Low(Half(w6)))
  }

  lemma TwoLower(w: Word, n: nat)
    ensures IntFrom(w, n + 2) == Digit(Low(w)) + 2 * Digit(Low(Half(w))) + 4 * IntFrom(Half(Half(w)), n)
  {
    hide Half, Low, Digit;
    assert IntFrom(w, n + 2) == Digit(Low(w)) + 2 * IntFrom(Half(w), n + 1);
  }

  lemma ByteOfIs(w: Word)
    ensures ByteOf(w) == IntFrom(w, 8)
  {
    hide Half, Low, Digit, IntFrom;
    TwoLower(w, 6);
    TwoLower(Half(Half(w)), 4);
    TwoLower(Half(Half(Half(Half(w)))), 2);
    TwoLower(Half(Half(Half(Half(Half(Half(w)))))), 0);
    NothingFrom(Half(Half(Half(Half(Half(Half(Half(Half(w)))))))));
  }

  lemma NothingFrom(w: Word)
    ensures IntFrom(w, 0) == 0
  {
  }

  lemma BitOfByte(w: Word, i: nat)
    requires i < 8
    ensures Bit(ByteOf(w), i) == WordBit(w, i)
  {
    hide Half, Low, WordBit, IntFrom, ByteOf;
    ByteOfIs(w);
    BitOfIntFrom(w, 8, i);
  }

  // ----- words with few bits set

  lemma OneParts()
    ensures Low(1) && Half(1) == 0
  {
  }

  lemma BitOfOne(i: nat)
    ensures WordBit(1, i) == (i == 0)
  {
    OneParts();
    hide Half, Low;
    if i > 0 {
      BitOfZero(i - 1);
    }
  }

  /** A single bit at place k. */
  lemma BitAt(m: Word, k: nat, i: nat)
    requires k < 64 && m == Turn(1, k) && i < 64
    ensures WordBit(m, i) == (i == k)
  {
    hide WordBit, Turn, RotBy;
    TurnIsRotBy(1, k);
    BitOfRotBy(1, k, i);
    BitOfOne((i - k) % 64);
  }

  lemma SingleBits()
    ensures Turn(1, 0) == 0x1 && Turn(1, 1) == 0x2 && Turn(1, 3) == 0x8 && Turn(1, 7) == 0x80
    ensures Turn(1, 15) == 0x8000 && Turn(1, 31) == 0x8000_0000 && Turn(1, 63) == 0x8000_0000_0000_0000
  {
  }

  function If(b: bool, w: Word): Word {
    if b then w else 0
  }

  lemma BitOfIf(b: bool, w: Word, i: nat)
    ensures WordBit(If(b, w), i) == (b && WordBit(w, i))
  {
    hide WordBit;
    BitOfZero(i);
  }

  /** Seven bits at the places 0, 1, 3, 7, 15, 31 and 63. */
  function PlacedWord(b0: bool, b1: bool, b2: bool, b3: bool, b4: bool, b5: bool, b6: bool): Word {
    XorWord(XorWord(XorWord(If(b0, 0x1), If(b1, 0x2)), XorWord(If(b2, 0x8), If(b3, 0x80))),
            XorWord(XorWord(If(b4, 0x8000), If(b5, 0x8000_0000)), If(b6, 0x8000_0000_0000_0000)))
  }

  lemma BitOfPlacedWord(i: nat, b0: bool, b1: bool, b2: bool, b3: bool, b4: bool, b5: bool, b6: bool)
    requires i < 64
    ensures WordBit(PlacedWord(b0, b1, b2, b3, b4, b5, b6), i) ==
            match i
            case 0 => b0
            case 1 => b1
            case 3 => b2
            case 7 => b3
            case 15 => b4
            case 31 => b5
            case 63 => b6
            case _ => false
  {
    hide WordBit, XorWord, If, Turn;
    SingleBits();
    BitAt(0x1, 0, i);
    BitAt(0x2, 1, i);
    BitAt(0x8, 3, i);
    BitAt(0x80, 7, i);
    BitAt(0x8000, 15, i);
    BitAt(0x8000_0000, 31, i);
    BitAt(0x8000_0000_0000_0000, 63, i);
    BitOfIf(b0, 0x1, i);
    BitOfIf(b1, 0x2, i);
    BitOfIf(b2, 0x8, i);
    BitOfIf(b3, 0x80, i);
    BitOfIf(b4, 0x8000, i);
    BitOfIf(b5, 0x8000_0000, i);
    BitOfIf(b6, 0x8000_0000_0000_0000, i);
    var p, q := XorWord(If(b0, 0x1), If(b1, 0x2)), XorWord(If(b2, 0x8), If(b3, 0x80));
    var r := XorWord(If(b4, 0x8000), If(b5, 0x8000_0000));
    BitOfXorWord(If(b0, 0x1), If(b1, 0x2), i);
    BitOfXorWord(If(b2, 0x8), If(b3, 0x80), i);
    BitOfXorWord(p, q, i);
    BitOfXorWord(If(b4, 0x8000), If(b5, 0x8000_0000), i);
    BitOfXorWord(r, If(b6, 0x8000_0000_0000_0000), i);
    BitOfXorWord(XorWord(p, q), XorWord(r, If(b6, 0x8000_0000_0000_0000)), i);
  }
}
