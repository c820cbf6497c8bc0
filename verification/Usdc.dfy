/**
 formatUsdc of apps/web/src/lib/constants.ts: six-decimal amounts as text.
 */
module Usdc {
  import opened JsonText
  import opened JsonParse

  const DECIMALS := 6

  function Pow10(k: nat): (p: nat)
    ensures p > 0
  {
    if k == 0 then 1 else 10 * Pow10(k - 1)
  }

  /** BigInt division and remainder: toward zero, the remainder with the dividend's sign. */
  function Quotient(v: int): int {
    if v < 0 then -(-v / 1_000_000) else v / 1_000_000
  }

  function Remainder(v: int): int {
    if v < 0 then -(-v % 1_000_000) else v % 1_000_000
  }

  function Zeros(k: nat): (z: string)
    ensures |z| == k
  {
    seq(k, i => '0')
  }

  /** padStart(6, "0") */
  function Padded(s: string): string {
    if |s| < DECIMALS then Zeros(DECIMALS - |s|) + s else s
  }

  /** replace(/0+$/, "") */
  function Stripped(s: string): string {
    if s != "" && s[|s| - 1] == '0' then Stripped(s[..|s| - 1]) else s
  }

  function FormatUsdc(v: int): string {
    var fraction := Stripped(Padded(IntText(Remainder(v))));
    if fraction != "" then IntText(Quotient(v)) + "." + fraction else IntText(Quotient(v))
  }

  /** Millionths after the decimal point: nothing, or a point and one to six digits. */
  function ReadDecimals(s: string): Option<nat> {
    if s == "" then Some(0)
    else if s[0] != '.' || |s| == 1 || |s| > 1 + DECIMALS || DigitRun(s[1..]) != |s| - 1 then None
    else
      RunIsDigits(s[1..]);
      assert s[1..][..DigitRun(s[1..])] == s[1..];
      Some(DigitsValue(s[1..]) * Pow10(DECIMALS + 1 - |s|))
  }

  function ReadMagnitude(t: string): Option<nat> {
    var n := DigitRun(t);
    RunIsDigits(t);
    if n == 0 then None
    else
      match ReadDecimals(t[n..])
      case None => None
      case Some(decimals) => Some(DigitsValue(t[..n]) * 1_000_000 + decimals)
  }

  /** Reads a decimal number with at most six decimals as a count of millionths. */
  function ReadUsdc(s: string): Option<int> {
    if s != "" && s[0] == '-' then
      match ReadMagnitude(s[1..])
      case None => None
      case Some(size) =>
        var value: int := 0 - size;
        Some(value)
    else ReadMagnitude(s)
  }

  // ----- digits

  lemma {:induction false} NatTextLength(n: nat, k: nat)
    requires k > 0 && n < Pow10(k)
    ensures |NatText(n)| <= k
  {
    if n >= 10 {
      assert n / 10 < Pow10(k - 1);
      NatTextLength(n / 10, k - 1);
    }
  }

  lemma {:induction false} LeadingZeros(k: nat, s: string)
    requires AllDigits(s)
    ensures AllDigits(Zeros(k) + s) && DigitsValue(Zeros(k) + s) == DigitsValue(s)
    decreases k
  {
    if k > 0 {
      LeadingZeros(k - 1, s);
      assert Zeros(k) + s == "0" + (Zeros(k - 1) + s);
      LeadingZero(Zeros(k - 1) + s);
    } else {
      assert Zeros(0) + s == s;
    }
  }

  lemma {:induction false} LeadingZero(s: string)
    requires AllDigits(s)
    ensures AllDigits("0" + s) && DigitsValue("0" + s) == DigitsValue(s)
    decreases |s|
  {
    var t := "0" + s;
    if s == "" {
      assert t[..0] == "";
    } else {
      assert t[..|t| - 1] == "0" + s[..|s| - 1];
      LeadingZero(s[..|s| - 1]);
    }
  }

  lemma {:induction false} StripDigits(s: string)
    requires AllDigits(s)
    ensures AllDigits(Stripped(s)) && |Stripped(s)| <= |s|
    ensures DigitsValue(s) == DigitsValue(Stripped(s)) * Pow10(|s| - |Stripped(s)|)
    decreases |s|
  {
    if s != "" && s[|s| - 1] == '0' {
      StripDigits(s[..|s| - 1]);
      TimesTen(DigitsValue(Stripped(s)), |s| - 1 - |Stripped(s)|);
    }
  }

  lemma TimesTen(d: nat, k: nat)
    ensures 10 * (d * Pow10(k)) == d * Pow10(k + 1)
  {
  }

  lemma {:induction false} StripLast(s: string)
    ensures Stripped(s) == "" || Stripped(s)[|Stripped(s)| - 1] != '0'
    decreases |s|
  {
    if s != "" && s[|s| - 1] == '0' {
      StripLast(s[..|s| - 1]);
    }
  }

  /** The six digits of a fraction. */
  lemma FractionDigits(f: nat)
    requires f < 1_000_000
    ensures var p := Padded(NatText(f));
            |p| == DECIMALS && AllDigits(p) && DigitsValue(p) == f
  {
    assert Pow10(DECIMALS) == 1_000_000 by {
      assert Pow10(3) == 1000;
    }
    NatTextLength(f, DECIMALS);
    NatTextDigits(f);
    if |NatText(f)| < DECIMALS {
      LeadingZeros(DECIMALS - |NatText(f)|, NatText(f));
    }
  }

  // ----- reading back

  lemma RunOfNat(n: nat, rest: string)
    requires rest == "" || rest[0] == '.'
    ensures var t := NatText(n) + rest;
            DigitRun(t) == |NatText(n)| && t[..DigitRun(t)] == NatText(n) && t[DigitRun(t)..] == rest
    ensures AllDigits(NatText(n)) && DigitsValue(NatText(n)) == n && NatText(n)[0] != '-'
  {
    NatTextDigits(n);
    DigitRunOf(NatText(n), rest);
  }

  lemma ReadUnsigned(n: nat, rest: string)
    requires rest == "" || rest[0] == '.'
    ensures ReadMagnitude(NatText(n) + rest) ==
            match ReadDecimals(rest)
            case None => None
            case Some(decimals) => Some(n * 1_000_000 + decimals)
  {
    RunOfNat(n, rest);
    hide NatText, DigitRun, DigitsValue, ReadDecimals;
  }

  lemma ReadSigned(negative: bool, n: nat, rest: string)
    requires rest == "" || rest[0] == '.'
    ensures ReadUsdc((if negative then "-" else "") + (NatText(n) + rest)) ==
            match ReadDecimals(rest)
            case None => None
            case Some(decimals) => Some(if negative then -(n * 1_000_000 + decimals) else n * 1_000_000 + decimals)
  {
    var t := NatText(n) + rest;
    RunOfNat(n, rest);
    ReadUnsigned(n, rest);
    hide NatText, DigitRun, DigitsValue, ReadDecimals, ReadMagnitude;
    if negative {
      assert ("-" + t)[1..] == t;
    } else {
      assert "" + t == t;
    }
  }

  lemma ReadPoint(f: string)
    ensures 1 <= |f| <= DECIMALS && AllDigits(f) ==>
              ReadDecimals("." + f) == Some(DigitsValue(f) * Pow10(DECIMALS - |f|))
    ensures !AllDigits(f) ==> ReadDecimals("." + f) == None
  {
    assert ("." + f)[1..] == f && f + "" == f;
    RunIsDigits(f);
    if AllDigits(f) {
      DigitRunOf(f, "");
    }
    hide DigitRun, DigitsValue, Pow10;
  }

  /** FormatUsdc in the reader's terms. */
  lemma FormatParts(v: int)
    ensures var n, f := Quotient(v), Stripped(Padded(IntText(Remainder(v))));
            FormatUsdc(v) == (if n < 0 then "-" else "") +
                             (NatText(if n < 0 then -n else n) + (if f == "" then "" else "." + f))
  {
    hide NatText, Stripped, Padded, Quotient, Remainder;
  }

  lemma FractionValue(f: nat)
    requires f < 1_000_000
    ensures var s := Stripped(Padded(NatText(f)));
            AllDigits(s) && |s| <= DECIMALS && DigitsValue(s) * Pow10(DECIMALS - |s|) == f && (f == 0 <==> s == "")
  {
    var p := Padded(NatText(f));
    FractionDigits(f);
    StripDigits(p);
    StripLast(p);
    if f == 0 {
      NatTextDigits(0);
      StrippedZeros(DECIMALS);
      assert NatText(0) == "0" && p == Zeros(DECIMALS);
    }
    hide NatText, Padded, Pow10, Stripped;
    assert DigitsValue("") == 0;
  }

  lemma {:induction false} StrippedZeros(k: nat)
    ensures Stripped(Zeros(k)) == ""
  {
    if k > 0 {
      assert Zeros(k)[..k - 1] == Zeros(k - 1);
      StrippedZeros(k - 1);
    }
  }

  lemma {:induction false} StripKeeps(s: string, i: nat)
    requires i < |s| && s[i] != '0'
    ensures i < |Stripped(s)| && Stripped(s)[i] == s[i]
    decreases |s|
  {
    if s[|s| - 1] == '0' {
      StripKeeps(s[..|s| - 1], i);
    }
  }

  /** The minus sign of a negative remainder ends up among the decimals. */
  lemma MinusInFraction(f: nat)
    ensures var s := Stripped(Padded("-" + NatText(f)));
            s != "" && !AllDigits(s)
  {
    var text := "-" + NatText(f);
    var p := Padded(text);
    var i := |p| - |text|;
    assert p[i] == '-';
    StripKeeps(p, i);
    assert !Digit('-');
  }

  lemma ReadFormatted(v: int)
    ensures var n, f := Quotient(v), Stripped(Padded(IntText(Remainder(v))));
            ReadUsdc(FormatUsdc(v)) ==
            match ReadDecimals(if f == "" then "" else "." + f)
            case None => None
            case Some(decimals) => Some(if n < 0 then n * 1_000_000 - decimals else n * 1_000_000 + decimals)
  {
    hide NatText, Stripped, Padded, Quotient, Remainder, ReadUsdc, FormatUsdc, ReadDecimals;
    var n, f := Quotient(v), Stripped(Padded(IntText(Remainder(v))));
    FormatParts(v);
    ReadSigned(n < 0, if n < 0 then -n else n, if f == "" then "" else "." + f);
  }

  lemma ReadBack(v: int)
    requires Remainder(v) >= 0
    ensures ReadUsdc(FormatUsdc(v)) == Some(v)
  {
    hide NatText, Stripped, Padded, Quotient, Remainder, ReadUsdc, FormatUsdc, ReadDecimals, DigitsValue, Pow10, AllDigits;
    var r := Remainder(v);
    assert IntText(r) == NatText(r);
    SplitAmount(v);
    ReadFormatted(v);
    FractionValue(r);
    ReadPoint(Stripped(Padded(IntText(r))));
    NoDecimals();
  }

  lemma NotReadBack(v: int)
    requires Remainder(v) < 0
    ensures ReadUsdc(FormatUsdc(v)) == None
  {
    hide NatText, Stripped, Padded, Quotient, Remainder, ReadUsdc, FormatUsdc, ReadDecimals, DigitsValue, Pow10, AllDigits;
    var r := Remainder(v);
    assert IntText(r) == "-" + NatText(-r);
    MinusInFraction(-r);
    ReadPoint(Stripped(Padded(IntText(r))));
    ReadFormatted(v);
  }

  lemma SplitAmount(v: int)
    ensures v == Quotient(v) * 1_000_000 + Remainder(v) && -1_000_000 < Remainder(v) < 1_000_000
    ensures Quotient(v) < 0 ==> Remainder(v) <= 0
    ensures Remainder(v) >= 0 <==> v >= 0 || v % 1_000_000 == 0
  {
  }

  /**
   An amount is read back as it was exactly when it is not negative or is a whole number:
   the printer gives a negative fraction a minus sign of its own, after the point.
   */
  lemma RoundTripIff(v: int)
    ensures ReadUsdc(FormatUsdc(v)) == Some(v) <==> v >= 0 || v % 1_000_000 == 0
  {
    SplitAmount(v);
    hide Remainder, ReadUsdc, FormatUsdc;
    if Remainder(v) >= 0 {
      ReadBack(v);
    } else {
      NotReadBack(v);
    }
  }

  lemma NoDecimals()
    ensures ReadDecimals("") == Some(0)
  {
  }

  /** On amounts the printer is injective, and never ends a fraction in a zero. */
  lemma FaithfulOnAmounts(v: nat, w: nat)
    ensures FormatUsdc(v) == FormatUsdc(w) ==> v == w
    ensures v % 1_000_000 != 0 ==> FormatUsdc(v)[|FormatUsdc(v)| - 1] != '0'
  {
    RoundTripIff(v);
    RoundTripIff(w);
    FormatParts(v);
    StripLast(Padded(IntText(Remainder(v))));
    FractionValue(v % 1_000_000);
    hide ReadUsdc, NatText, Stripped, Padded, DigitsValue, Pow10, AllDigits;
  }
}
