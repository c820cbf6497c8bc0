/**
 The two orders in which the serializers sort object keys: JavaScript compares UTF-16 code
 units, Python compares code points. A string is a sequence of Unicode scalar values, so
 lone surrogates do not occur.
 */
module KeyOrder {

  predicate LexLess(a: seq<int>, b: seq<int>) {
    if b == [] then false
    else if a == [] then true
    else if a[0] != b[0] then a[0] < b[0]
    else LexLess(a[1..], b[1..])
  }

  /** The sequences agree up to n, and there `a` has ended or has the smaller element. */
  predicate SmallerAt(a: seq<int>, b: seq<int>, n: nat) {
    n <= |a| && n < |b| && a[..n] == b[..n] && (n == |a| || a[n] < b[n])
  }

  /** At the first difference `a` has ended or has the smaller element. */
  ghost predicate Before(a: seq<int>, b: seq<int>) {
    exists n: nat :: SmallerAt(a, b, n)
  }

  lemma {:induction false} LexLessIff(a: seq<int>, b: seq<int>)
    ensures LexLess(a, b) <==> Before(a, b)
  {
    if b == [] {
    } else if a == [] || a[0] < b[0] {
      assert SmallerAt(a, b, 0);
    } else if a[0] == b[0] {
      LexLessIff(a[1..], b[1..]);
      if LexLess(a, b) {
        var m: nat :| SmallerAt(a[1..], b[1..], m);
        assert a[..m + 1] == [a[0]] + a[1..][..m] && b[..m + 1] == [b[0]] + b[1..][..m];
        assert SmallerAt(a, b, m + 1);
      }
      if n: nat :| SmallerAt(a, b, n) {
        assert a[1..][..n - 1] == a[1..n] == a[..n][1..];
        assert b[1..][..n - 1] == b[1..n] == b[..n][1..];
        assert SmallerAt(a[1..], b[1..], n - 1);
      }
    } else {
      forall n: nat { HeadsDecide(a, b, n); }
    }
  }

  lemma HeadsDecide(a: seq<int>, b: seq<int>, n: nat)
    ensures SmallerAt(a, b, n) && a != [] ==> a[0] <= b[0]
  {
    if SmallerAt(a, b, n) && n > 0 {
      assert a[..n][0] == b[..n][0];
    }
  }

  lemma {:induction false} LexIrreflexive(a: seq<int>)
    ensures !LexLess(a, a)
  {
    if a != [] {
      LexIrreflexive(a[1..]);
    }
  }

  lemma {:induction false} LexTransitive(a: seq<int>, b: seq<int>, c: seq<int>)
    requires LexLess(a, b) && LexLess(b, c)
    ensures LexLess(a, c)
  {
    if a != [] && a[0] == b[0] == c[0] {
      LexTransitive(a[1..], b[1..], c[1..]);
    }
  }

  lemma {:induction false} LexTotal(a: seq<int>, b: seq<int>)
    ensures a == b || LexLess(a, b) || LexLess(b, a)
  {
    if a != [] && b != [] && a[0] == b[0] {
      LexTotal(a[1..], b[1..]);
      assert a == [a[0]] + a[1..] && b == [b[0]] + b[1..];
    }
  }

  function CodePoints(s: string): (r: seq<int>)
    ensures |r| == |s|
  {
    seq(|s|, i requires 0 <= i < |s| => s[i] as int)
  }

  /** One code unit, or a surrogate pair for a character beyond U+FFFF. */
  function Units(c: char): (r: seq<int>)
    ensures |r| == 1 || |r| == 2
  {
    var n := c as int;
    if n < 0x10000 then [n]
    else [0xD800 + (n - 0x10000) / 0x400, 0xDC00 + (n - 0x10000) % 0x400]
  }

  function Utf16(s: string): seq<int> {
    if s == "" then [] else Units(s[0]) + Utf16(s[1..])
  }

  /** `a < b` on JavaScript strings. */
  predicate Utf16Less(s: string, t: string) {
    LexLess(Utf16(s), Utf16(t))
  }

  /** `a < b` on Python strings. */
  predicate CodePointLess(s: string, t: string) {
    LexLess(CodePoints(s), CodePoints(t))
  }

  /** Both orders compare the units or code points at the first difference. */
  lemma OrdersAre(s: string, t: string)
    ensures Utf16Less(s, t) <==> Before(Utf16(s), Utf16(t))
    ensures CodePointLess(s, t) <==> Before(CodePoints(s), CodePoints(t))
  {
    hide LexLess, Before;
    LexLessIff(Utf16(s), Utf16(t));
    LexLessIff(CodePoints(s), CodePoints(t));
  }

  lemma {:induction false} Utf16Append(s: string, t: string)
    ensures Utf16(s + t) == Utf16(s) + Utf16(t)
  {
    if s == "" {
      assert s + t == t;
    } else {
      assert (s + t)[1..] == s[1..] + t;
      Utf16Append(s[1..], t);
    }
  }

  /** A key that is a proper prefix of another comes first in both orders. */
  lemma PrefixFirst(s: string, t: string)
    requires s <= t && s != t
    ensures Utf16Less(s, t) && CodePointLess(s, t)
  {
    var rest := t[|s|..];
    assert t == s + rest;
    Utf16Append(s, rest);
    assert Utf16(rest) != [];
    assert SmallerAt(Utf16(s), Utf16(t), |Utf16(s)|);
    assert SmallerAt(CodePoints(s), CodePoints(t), |s|);
    OrdersAre(s, t);
  }

  /** The units are UTF-16: one unit outside the surrogates, or a pair from which the code point is read back. */
  lemma UnitsAreUtf16(c: char)
    ensures var n, u := c as int, Units(c);
            if n < 0x10000 then u == [n] && !(0xD800 <= n < 0xE000)
            else |u| == 2 && 0xD800 <= u[0] < 0xDC00 && 0xDC00 <= u[1] < 0xE000 &&
                 n == 0x10000 + (u[0] - 0xD800) * 0x400 + (u[1] - 0xDC00)
  {
  }

  /** A character beyond U+FFFF against one in U+E000..U+FFFF: its surrogates sort first. */
  predicate Clash(c: char, d: char) {
    (c as int >= 0x10000 && 0xE000 <= d as int < 0x10000) ||
    (d as int >= 0x10000 && 0xE000 <= c as int < 0x10000)
  }

  /** The first position where `s` and `t` differ holds a clash. */
  predicate KeysClash(s: string, t: string) {
    s != "" && t != "" &&
    if s[0] == t[0] then KeysClash(s[1..], t[1..]) else Clash(s[0], t[0])
  }

  lemma {:induction false} LexAfter(p: seq<int>, a: seq<int>, b: seq<int>)
    ensures LexLess(p + a, p + b) == LexLess(a, b)
  {
    if p == [] {
      assert p + a == a && p + b == b;
    } else {
      assert (p + a)[1..] == p[1..] + a && (p + b)[1..] == p[1..] + b;
      LexAfter(p[1..], a, b);
    }
  }

  /** The units of different characters already differ in the first place where they can. */
  lemma UnitsDecide(c: char, d: char, a: seq<int>, b: seq<int>)
    requires c != d
    ensures LexLess(Units(c) + a, Units(d) + b) == ((c < d) != Clash(c, d))
  {
    var m, n := c as int, d as int;
    if m >= 0x10000 && n >= 0x10000 && (m - 0x10000) / 0x400 == (n - 0x10000) / 0x400 {
      assert (Units(c) + a)[1..][0] == Units(c)[1] && (Units(d) + b)[1..][0] == Units(d)[1];
    }
  }

  /** The two orders disagree on exactly the pairs of keys that clash. */
  lemma {:induction false} OrdersDisagreeIff(s: string, t: string)
    requires s != t
    ensures Utf16Less(s, t) == (CodePointLess(s, t) != KeysClash(s, t))
  {
    if s != "" && t != "" {
      if s[0] == t[0] {
        LexAfter(Units(s[0]), Utf16(s[1..]), Utf16(t[1..]));
        assert CodePoints(s)[1..] == CodePoints(s[1..]) && CodePoints(t)[1..] == CodePoints(t[1..]);
        assert s == [s[0]] + s[1..] && t == [t[0]] + t[1..];
        OrdersDisagreeIff(s[1..], t[1..]);
      } else {
        UnitsDecide(s[0], t[0], Utf16(s[1..]), Utf16(t[1..]));
      }
    }
  }

  // ----- both are strict total orders

  ghost predicate StrictTotal(less: (string, string) -> bool) {
    && (forall s :: !less(s, s))
    && (forall s, t, u :: less(s, t) && less(t, u) ==> less(s, u))
    && (forall s, t :: s == t || less(s, t) || less(t, s))
  }

  lemma {:induction false} Utf16Injective(s: string, t: string)
    requires Utf16(s) == Utf16(t)
    ensures s == t
  {
    if s != "" && t != "" {
      if s[0] == t[0] {
        assert Utf16(s)[|Units(s[0])|..] == Utf16(s[1..]);
        assert Utf16(t)[|Units(t[0])|..] == Utf16(t[1..]);
        Utf16Injective(s[1..], t[1..]);
      } else {
        UnitsDecide(s[0], t[0], Utf16(s[1..]), Utf16(t[1..]));
        UnitsDecide(t[0], s[0], Utf16(t[1..]), Utf16(s[1..]));
      }
    }
  }

  lemma Utf16IsStrictTotal()
    ensures StrictTotal(Utf16Less)
  {
    forall s { LexIrreflexive(Utf16(s)); }
    forall s, t, u | Utf16Less(s, t) && Utf16Less(t, u)
      ensures Utf16Less(s, u)
    {
      LexTransitive(Utf16(s), Utf16(t), Utf16(u));
    }
    forall s, t
      ensures s == t || Utf16Less(s, t) || Utf16Less(t, s)
    {
      LexTotal(Utf16(s), Utf16(t));
      if Utf16(s) == Utf16(t) {
        Utf16Injective(s, t);
      }
    }
  }

  lemma CodePointIsStrictTotal()
    ensures StrictTotal(CodePointLess)
  {
    forall s { LexIrreflexive(CodePoints(s)); }
    forall s, t, u | CodePointLess(s, t) && CodePointLess(t, u)
      ensures CodePointLess(s, u)
    {
      LexTransitive(CodePoints(s), CodePoints(t), CodePoints(u));
    }
    forall s, t
      ensures s == t || CodePointLess(s, t) || CodePointLess(t, s)
    {
      LexTotal(CodePoints(s), CodePoints(t));
      if CodePoints(s) == CodePoints(t) {
        assert |CodePoints(s)| == |CodePoints(t)|;
        forall i | 0 <= i < |s|
          ensures s[i] == t[i]
        {
          assert CodePoints(s)[i] == CodePoints(t)[i];
          assert (s[i] as int) as char == (t[i] as int) as char;
        }
        assert s == t;
      }
    }
  }
}
