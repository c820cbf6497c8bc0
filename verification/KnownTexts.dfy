/**
 Texts worked out by hand from ECMA-262 and RFC 8259, against which the printers are held:
 they fix what round trips leave open, such as the base of the numerals.
 */
module KnownTexts {
  import opened KeyOrder
  import opened Json
  import opened JsonText
  import opened CanonicalForm
  import opened Usdc

  lemma OneMoreDigit(n: nat, d: nat)
    requires n > 0 && d < 10
    ensures NatText(10 * n + d) == NatText(n) + [DigitChar(d)]
  {
  }

  lemma Numerals()
    ensures IntText(0) == "0" && IntText(9876543210) == "9876543210" && IntText(-10) == "-10"
  {
    hide NatText;
    SingleDigits();
    OneMoreDigit(9, 8);
    OneMoreDigit(98, 7);
    OneMoreDigit(987, 6);
    OneMoreDigit(9876, 5);
    OneMoreDigit(98765, 4);
    OneMoreDigit(987654, 3);
    OneMoreDigit(9876543, 2);
    OneMoreDigit(98765432, 1);
    OneMoreDigit(987654321, 0);
    OneMoreDigit(1, 0);
  }

  lemma SingleDigits()
    ensures forall d :: 0 <= d < 10 ==> NatText(d) == [DigitChar(d)]
  {
  }

  // ----- amounts

  lemma {:induction false} StripsZeros(s: string, k: nat)
    ensures Stripped(s + Zeros(k)) == Stripped(s)
  {
    if k > 0 {
      assert (s + Zeros(k))[..|s| + k - 1] == s + Zeros(k - 1);
      StripsZeros(s, k - 1);
    } else {
      assert s + Zeros(0) == s;
    }
  }

  lemma ZeroTexts()
    ensures "5" + Zeros(5) == "500000" && "-5" + Zeros(5) == "-500000" && "" + Zeros(6) == "000000"
  {
  }

  lemma Unstripped()
    ensures Stripped("5") == "5" && Stripped("-5") == "-5" && Stripped("") == "" && Stripped("000001") == "000001"
  {
  }

  lemma FractionTexts()
    ensures Stripped("500000") == "5" && Stripped("-500000") == "-5" && Stripped("000000") == ""
  {
    hide Stripped;
    ZeroTexts();
    Unstripped();
    StripsZeros("5", 5);
    StripsZeros("-5", 5);
    StripsZeros("", 6);
  }

  lemma FractionNumerals()
    ensures IntText(500000) == "500000" && IntText(-500000) == "-500000" && IntText(0) == "0"
    ensures IntText(1) == "1" && IntText(2) == "2" && IntText(-1) == "-1"
  {
    hide NatText;
    SingleDigits();
    OneMoreDigit(5, 0);
    OneMoreDigit(50, 0);
    OneMoreDigit(500, 0);
    OneMoreDigit(5000, 0);
    OneMoreDigit(50000, 0);
  }

  /** Amounts of the application, and the negative one whose text has a second sign inside. */
  lemma Amounts()
    ensures FormatUsdc(0) == "0" && FormatUsdc(2_000_000) == "2" && FormatUsdc(1_500_000) == "1.5"
    ensures FormatUsdc(1) == "0.000001" && FormatUsdc(-1_500_000) == "-1.-5"
  {
    hide IntText, Stripped;
    FractionTexts();
    Unstripped();
    FractionNumerals();
    assert Padded("0") == "000000" && Padded("1") == "000001";
  }

  // ----- canonical text

  lemma EscapeStep(c: char, s: string)
    ensures Escape([c] + s) == EscapeChar(c) + Escape(s)
  {
    hide EscapeChar;
    assert ([c] + s)[1..] == s;
  }

  lemma EscapedCharacters()
    ensures EscapeChar('\n') == "\\n" && EscapeChar('\"') == "\\\"" && EscapeChar('\U{1F}') == "\\u001f"
    ensures EscapeChar('t') == "t" && EscapeChar('o') == "o" && EscapeChar('k') == "k" && EscapeChar('0') == "0"
    ensures EscapeChar('e') == "e" && EscapeChar('n') == "n"
  {
  }

  lemma QuotedTexts()
    ensures Quote("\n\"\U{1F}") == "\"\\n\\\"\\u001f\"" && Quote("0") == "\"0\""
    ensures Quote("to") == "\"to\"" && Quote("token") == "\"token\""
  {
    EscapedCharacters();
    hide EscapeChar;
    assert Escape("") == "";
    hide Escape;
    EscapeStep('\U{1F}', "");
    EscapeStep('\"', "\U{1F}");
    EscapeStep('\n', "\"\U{1F}");
    EscapeStep('0', "");
    EscapeStep('o', "");
    EscapeStep('t', "o");
    EscapeStep('n', "");
    EscapeStep('e', "n");
    EscapeStep('k', "en");
    EscapeStep('o', "ken");
    EscapeStep('t', "oken");
  }

  lemma EncodedScalars()
    ensures Encode(Num(-10)) == "-10" && Encode(Num(2)) == "2" && Encode(Null) == Encode(Undefined) == "null"
    ensures Encode(Bool(true)) == "true" && Encode(BigInt(0)) == "\"0\""
    ensures Encode(Str("\n\"\U{1F}")) == "\"\\n\\\"\\u001f\""
  {
    hide IntText, Quote;
    Numerals();
    FractionNumerals();
    QuotedTexts();
  }

  /** Keys are sorted, an undefined one is left out, and "to" comes before "token". */
  lemma EncodedObject()
    ensures Encode(Obj([Field("token", Num(2)), Field("gas", Undefined), Field("to", Arr([Null, Bool(true)]))])) ==
            "{\"to\":[null,true],\"token\":2}"
  {
    var token, gas, to := Field("token", Num(2)), Field("gas", Undefined), Field("to", Arr([Null, Bool(true)]));
    var fields := [token, gas, to];
    assert Present([to]) == [to] by { assert [to][1..] == []; }
    assert Present([gas, to]) == [to] by { assert [gas, to][1..] == [to]; }
    assert fields[1..] == [gas, to];
    assert Present(fields) == [token, to];
    SortedKeys(token, to);
    assert Sort(Utf16Less, [token, to]) == [to, token];
    EncodedParts(token, to);
  }

  lemma SortedKeys(token: Field, to: Field)
    requires token.key == "token" && to.key == "to"
    ensures Sort(Utf16Less, [token, to]) == [to, token]
  {
    assert "token" == "to" + "ken";
    PrefixFirst("to", "token");
    Utf16IsStrictTotal();
    assert !Utf16Less("token", "to");
    hide Utf16Less, StrictTotal;
    SortTwo(Utf16Less, token, to);
  }

  lemma SortTwo(less: (string, string) -> bool, f: Field, g: Field)
    requires !less(f.key, g.key)
    ensures Sort(less, [f, g]) == [g, f]
  {
    assert [f, g][1..] == [g] && [g][1..] == [];
    assert Sort(less, [g]) == [g];
  }

  lemma EncodedList()
    ensures Encode(Arr([Null, Bool(true)])) == "[null,true]"
  {
    var items := [Null, Bool(true)];
    assert items[1..] == [Bool(true)] && items[1..][1..] == [];
    assert EncodeItems(items[1..]) == ["true"];
    assert EncodeItems(items) == ["null", "true"];
    JoinTwo("null", "true");
  }

  lemma JoinTwo(a: string, b: string)
    ensures Join([a, b]) == a + "," + b
  {
    assert [a, b][1..] == [b];
  }

  lemma EncodedParts(token: Field, to: Field)
    requires token == Field("token", Num(2)) && to == Field("to", Arr([Null, Bool(true)]))
    ensures "{" + Join(EncodeFields([to, token])) + "}" == "{\"to\":[null,true],\"token\":2}"
  {
    EncodedList();
    EncodedScalars();
    QuotedTexts();
    var a, b := Quote("to") + ":" + Encode(to.value), Quote("token") + ":" + Encode(token.value);
    TwoFields(to, token);
    JoinTwo(a, b);
    hide Quote, Encode, EncodeFields, Join;
    assert a == "\"to\":[null,true]" && b == "\"token\":2";
  }

  lemma TwoFields(f: Field, g: Field)
    ensures EncodeFields([f, g]) == [Quote(f.key) + ":" + Encode(f.value), Quote(g.key) + ":" + Encode(g.value)]
  {
    hide Quote, Encode;
    assert [f, g][1..] == [g] && [g][1..] == [];
    assert EncodeFields([g]) == [Quote(g.key) + ":" + Encode(g.value)];
  }
}
