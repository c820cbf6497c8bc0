/**
 Canonical text is the shortest: no JSON text that is read back as the same value, in any
 key order, has fewer characters. And among the ways to write one character, the
 serializers choose the only shortest one whose hexadecimal digits are lower-case.
 */
module ShortestText {
  import opened KeyOrder
  import opened Json
  import opened JsonText
  import opened CanonicalForm
  import opened JsonParse
  import opened CanonicalJson

  // ----- characters and strings

  lemma HexPair(s: string)
    requires |s| == 4 && HexChar(s).Some? && HexChar(s).value < ' '
    requires forall i :: 0 <= i < 4 ==> !('A' <= s[i] <= 'F')
    ensures var n := HexChar(s).value as int;
            s == ['0', '0', HexDigit(n / 16), HexDigit(n % 16)]
  {
    var a, b, c, d := HexValue(s[0]).value, HexValue(s[1]).value, HexValue(s[2]).value, HexValue(s[3]).value;
    var m := 0x1000 * a + 0x100 * b + 0x10 * c + d;
    assert HexChar(s).value as int == m;
    assert a == 0 && b == 0 && m / 16 == c && m % 16 == d;
  }

  /** Every other way to write a character is longer, or has an upper-case hexadecimal digit. */
  lemma EscapeUnique(e: string, c: char)
    requires ParseChar(e) == Some((c, ""))
    ensures |EscapeChar(c)| <= |e|
    ensures |e| == |EscapeChar(c)| && (|e| == 6 ==> forall i :: 0 <= i < 6 ==> !('A' <= e[i] <= 'F')) ==>
            e == EscapeChar(c)
  {
    hide HexChar;
    if |e| == 6 && |EscapeChar(c)| == 6 && forall i :: 0 <= i < 6 ==> !('A' <= e[i] <= 'F') {
      HexPair(e[2..6]);
      assert e == e[..2] + e[2..6];
    }
  }

  lemma CharShortest(s: string)
    requires ParseChar(s).Some?
    ensures |s| - |ParseChar(s).value.1| >= |EscapeChar(ParseChar(s).value.0)|
  {
    hide HexChar;
  }

  lemma {:induction false} StringShortest(s: string)
    requires ParseString(s).Some?
    ensures |s| - |ParseString(s).value.1| >= |Escape(ParseString(s).value.0)| + 1
    decreases |s|
  {
    if s[0] != '\"' {
      CharShortest(s);
      StringShortest(ParseChar(s).value.1);
      hide ParseChar, EscapeChar;
    }
  }

  // ----- numbers

  lemma {:induction false} NatShortest(d: string)
    requires AllDigits(d) && d != ""
    ensures |NatText(DigitsValue(d))| <= |d|
  {
    if |d| > 1 {
      NatShortest(d[..|d| - 1]);
    } else {
      assert d[..0] == "";
    }
  }

  lemma NumberShortest(s: string)
    requires ParseNumber(s).Some?
    ensures |s| - |ParseNumber(s).value.1| >= |Print(ParseNumber(s).value.0)|
  {
    var t := if s != "" && s[0] == '-' then s[1..] else s;
    RunIsDigits(t);
    NatShortest(t[..DigitRun(t)]);
    hide NatText, DigitsValue, DigitRun;
  }

  // ----- lists

  /** What the elements of an array take, each with the comma or bracket after it. */
  function ItemsLength(items: seq<Value>): nat {
    if items == [] then 0 else |Print(items[0])| + 1 + ItemsLength(items[1..])
  }

  function FieldsLength(fields: seq<Field>): nat {
    if fields == [] then 0 else |PrintField(fields[0])| + 1 + FieldsLength(fields[1..])
  }

  lemma {:induction false} ArrayLength(items: seq<Value>)
    ensures |Print(Arr(items))| == if items == [] then 2 else 1 + ItemsLength(items)
  {
    if items != [] {
      ArrayLength(items[1..]);
      ItemsText(items, "");
      hide Join, PrintItems;
    }
  }

  lemma {:induction false} ObjectLength(fields: seq<Field>)
    ensures |Print(Obj(fields))| == if fields == [] then 2 else 1 + FieldsLength(fields)
  {
    if fields != [] {
      ObjectLength(fields[1..]);
      FieldsText(fields, "");
      hide Join, PrintFields, PrintField;
    }
  }

  lemma {:induction false} FieldsLengthAppend(a: seq<Field>, b: seq<Field>)
    ensures FieldsLength(a + b) == FieldsLength(a) + FieldsLength(b)
  {
    if a == [] {
      assert a + b == b;
    } else {
      assert (a + b)[1..] == a[1..] + b;
      FieldsLengthAppend(a[1..], b);
    }
  }

  lemma OneField(f: Field)
    ensures FieldsLength([f]) == |PrintField(f)| + 1
  {
    hide PrintField;
    assert FieldsLength([f][1..]) == 0;
  }

  /** Replacing one field changes the length by what that field takes. */
  lemma Replaced(before: seq<Field>, f: Field, after: seq<Field>)
    ensures FieldsLength(before + ([f] + after)) == FieldsLength(before) + |PrintField(f)| + 1 + FieldsLength(after)
  {
    hide FieldsLength, PrintField;
    OneField(f);
    FieldsLengthAppend([f], after);
    FieldsLengthAppend(before, [f] + after);
  }

  lemma UpdateLength(fields: seq<Field>, i: nat, f: Field)
    requires i < |fields|
    ensures FieldsLength(fields[i := f]) == FieldsLength(fields) - |PrintField(fields[i])| + |PrintField(f)|
  {
    hide FieldsLength, PrintField;
    var before, after := fields[..i], fields[i + 1..];
    assert fields == before + ([fields[i]] + after);
    assert fields[i := f] == before + ([f] + after);
    Replaced(before, fields[i], after);
    Replaced(before, f, after);
  }

  lemma PutShortens(fields: seq<Field>, f: Field)
    ensures FieldsLength(Put(fields, f)) <= FieldsLength(fields) + |PrintField(f)| + 1
  {
    hide FieldsLength, PrintField, IndexOf, Has;
    if Has(fields, f.key) {
      UpdateLength(fields, IndexOf(fields, f.key), f);
    } else {
      OneField(f);
      FieldsLengthAppend(fields, [f]);
    }
  }

  // ----- values

  /** Reading a value consumes at least what printing it takes. */
  lemma {:induction false} ValueShortest(text: string)
    requires ParseValue(text).Some?
    ensures |text| - |ParseValue(text).value.1| >= |Print(ParseValue(text).value.0)|
    decreases |text|, 2
  {
    hide Print, ParseString, ParseElements, ParseMembers, ParseNumber, SkipSpace;
    var s := SkipSpace(text);
    if s[0] == '\"' {
      StringShortest(s[1..]);
      QuotedLength(ParseString(s[1..]).value.0);
    } else if s[0] == '[' {
      ArrayLength(ParseValue(text).value.0.items);
      if ParseElements(s[1..]).Some? {
        ElementsShortest(s[1..]);
      }
    } else if s[0] == '{' {
      ObjectLength(ParseValue(text).value.0.fields);
      if ParseMembers(s[1..], []).Some? {
        MembersShortest(s[1..], []);
      }
    } else if "null" <= s || "true" <= s || "false" <= s {
      LiteralLengths();
    } else {
      NumberShortest(s);
    }
  }

  lemma QuotedLength(a: string)
    ensures |Print(Str(a))| == |Escape(a)| + 2
  {
  }

  lemma LiteralLengths()
    ensures |Print(Null)| == 4 && |Print(Bool(true))| == 4 && |Print(Bool(false))| == 5
  {
  }

  lemma {:induction false} ElementsShortest(s: string)
    requires ParseElements(s).Some?
    ensures ParseElements(s).value.0 != []
    ensures |s| - |ParseElements(s).value.1| >= ItemsLength(ParseElements(s).value.0)
    decreases |s|, 3
  {
    hide Print, ParseValue, SkipSpace;
    ValueShortest(s);
    var v := ParseValue(s).value;
    var t := SkipSpace(v.1);
    if t[0] == ']' {
      assert ItemsLength([v.0]) == |Print(v.0)| + 1 + ItemsLength([v.0][1..]);
    } else {
      ElementsShortest(t[1..]);
      var rest := ParseElements(t[1..]).value;
      assert ([v.0] + rest.0)[1..] == rest.0;
    }
  }

  lemma {:induction false} MemberShortest(text: string)
    requires ParseMember(text).Some?
    ensures |text| - |ParseMember(text).value.1| >= |PrintField(ParseMember(text).value.0)|
    decreases |text|, 1
  {
    hide Print, ParseString, ParseValue, SkipSpace;
    var s := SkipSpace(text);
    StringShortest(s[1..]);
    ValueShortest(SkipSpace(ParseString(s[1..]).value.1)[1..]);
  }

  lemma {:induction false} MembersShortest(s: string, before: seq<Field>)
    requires ParseMembers(s, before).Some?
    ensures ParseMembers(s, before).value.0 != []
    ensures FieldsLength(before) + |s| - |ParseMembers(s, before).value.1| >=
            FieldsLength(ParseMembers(s, before).value.0)
    decreases |s|, 3
  {
    hide FieldsLength, PrintField, ParseMember, SkipSpace;
    MemberShortest(s);
    var f := ParseMember(s).value;
    PutShortens(before, f.0);
    var t := SkipSpace(f.1);
    if t[0] == ',' {
      MembersShortest(t[1..], Put(before, f.0));
    }
  }

  // ----- reading gives plain values

  lemma PutPlain(fields: seq<Field>, f: Field)
    requires Plain(Obj(fields)) && Plain(f.value)
    ensures Plain(Obj(Put(fields, f)))
  {
    var r := Put(fields, f);
    forall i | 0 <= i < |r|
      ensures Plain(r[i].value)
    {
      assert r[i] == f || r[i] in fields;
    }
    assert Distinct(r) by {
      hide Plain;
    }
  }

  lemma NumberIsPlain(s: string)
    requires ParseNumber(s).Some?
    ensures Plain(ParseNumber(s).value.0)
  {
  }

  /** What is read has no undefined, fractional or big number, and no key twice. */
  lemma {:induction false} ParsedIsPlain(text: string)
    requires ParseValue(text).Some?
    ensures Plain(ParseValue(text).value.0)
    decreases |text|, 2
  {
    hide ParseString, ParseElements, ParseMembers, ParseNumber, SkipSpace;
    var s := SkipSpace(text);
    if s[0] == '\"' {
    } else if s[0] == '[' {
      if ParseElements(s[1..]).Some? {
        ElementsArePlain(s[1..]);
      }
    } else if s[0] == '{' {
      if ParseMembers(s[1..], []).Some? {
        MembersArePlain(s[1..], []);
      }
    } else if !("null" <= s || "true" <= s || "false" <= s) {
      NumberIsPlain(s);
    }
  }

  lemma {:induction false} ElementsArePlain(s: string)
    requires ParseElements(s).Some?
    ensures Plain(Arr(ParseElements(s).value.0))
    decreases |s|, 3
  {
    hide ParseValue, SkipSpace;
    ParsedIsPlain(s);
    var t := SkipSpace(ParseValue(s).value.1);
    if t[0] == ',' {
      ElementsArePlain(t[1..]);
    }
  }

  lemma {:induction false} MemberIsPlain(text: string)
    requires ParseMember(text).Some?
    ensures Plain(ParseMember(text).value.0.value)
    decreases |text|, 1
  {
    hide Plain, ParseString, ParseValue, SkipSpace;
    var s := SkipSpace(text);
    ParsedIsPlain(SkipSpace(ParseString(s[1..]).value.1)[1..]);
  }

  lemma {:induction false} MembersArePlain(s: string, before: seq<Field>)
    requires ParseMembers(s, before).Some? && Plain(Obj(before))
    ensures Plain(Obj(ParseMembers(s, before).value.0))
    decreases |s|, 3
  {
    hide Plain, Put, ParseMember, SkipSpace;
    MemberIsPlain(s);
    var f := ParseMember(s).value;
    PutPlain(before, f.0);
    var t := SkipSpace(f.1);
    if t[0] == ',' {
      MembersArePlain(t[1..], Put(before, f.0));
    }
  }

  // ----- key order does not change the length

  lemma {:induction false} InsertLength(less: (string, string) -> bool, f: Field, fields: seq<Field>)
    ensures FieldsLength(Insert(less, f, fields)) == |PrintField(f)| + 1 + FieldsLength(fields)
  {
    hide PrintField;
    if fields == [] {
      OneField(f);
    } else if less(f.key, fields[0].key) {
      assert ([f] + fields)[1..] == fields;
    } else {
      InsertLength(less, f, fields[1..]);
    }
  }

  lemma {:induction false} SortLength(less: (string, string) -> bool, fields: seq<Field>)
    ensures FieldsLength(Sort(less, fields)) == FieldsLength(fields)
  {
    hide PrintField;
    if fields != [] {
      SortLength(less, fields[1..]);
      InsertLength(less, fields[0], Sort(less, fields[1..]));
    }
  }

  /** Canonical text is as long as the text in any other key order. */
  lemma {:induction false} FormLength(less: (string, string) -> bool, v: Value)
    requires Plain(v)
    ensures |Print(Form(less, true, v))| == |Print(v)|
    decreases Size(v), 0
  {
    hide Print;
    match v
    case Arr(items) =>
      ItemFormsLength(less, items);
      ArrayLength(items);
      ArrayLength(FormItems(less, true, items));
    case Obj(fields) =>
      var sorted := Sort(less, fields);
      PlainHasNoUndefined(fields);
      SameElements(sorted, fields);
      FieldFormsLength(less, sorted);
      SortLength(less, fields);
      ObjectLength(fields);
      ObjectLength(FormFields(less, true, sorted));
    case _ =>
  }

  lemma {:induction false} ItemFormsLength(less: (string, string) -> bool, items: seq<Value>)
    requires forall x :: x in items ==> Plain(x)
    ensures ItemsLength(FormItems(less, true, items)) == ItemsLength(items)
    decreases SizeItems(items), 1
  {
    hide Print, Plain;
    if items != [] {
      FormLength(less, items[0]);
      ItemFormsLength(less, items[1..]);
    }
  }

  lemma {:induction false} FieldFormsLength(less: (string, string) -> bool, fields: seq<Field>)
    requires forall f :: f in fields ==> Plain(f.value)
    ensures FieldsLength(FormFields(less, true, fields)) == FieldsLength(fields)
    decreases SizeFields(fields), 1
  {
    hide Print, Plain;
    if fields != [] {
      FormLength(less, fields[0].value);
      FieldFormsLength(less, fields[1..]);
    }
  }

  /** No text read back as the value, or as the value with other key orders, is shorter than canonical text. */
  lemma EncodeIsShortest(v: Value, text: string)
    requires Plain(v) && Parse(text).Some? && Same(v, Parse(text).value)
    ensures |Encode(v)| <= |text|
  {
    hide Encode, Plain, Same, Form, Print, ParseValue, StrictTotal, WellFormed, HasFraction;
    var w := Parse(text).value;
    ValueShortest(text);
    ParsedIsPlain(text);
    PlainHasNoFraction(v);
    PlainHasNoFraction(w);
    Utf16IsStrictTotal();
    SameForms(Utf16Less, true, v, w);
    EncodeIsPrint(v);
    FormLength(Utf16Less, w);
  }
}
