/**
 A JSON reader after RFC 8259, for the texts JSON.parse and json.loads are given here:
 integers in the safe range, and escapes other than surrogates. It reads back whatever
 `Print` wrote, and stops where the value ends.
 */
module JsonParse {
  import opened KeyOrder
  import opened Json
  import opened JsonText
  import opened CanonicalForm

  datatype Option<+T> = None | Some(value: T)

  predicate Space(c: char) {
    c == ' ' || c == '\n' || c == '\r' || c == '\t'
  }

  function SkipSpace(s: string): (r: string)
    ensures |r| <= |s|
  {
    if s != "" && Space(s[0]) then SkipSpace(s[1..]) else s
  }

  // ----- numbers (section 6)

  predicate Digit(c: char) {
    '0' <= c <= '9'
  }

  function DigitValue(c: char): (d: nat)
    requires Digit(c)
    ensures d < 10
  {
    c as int - '0' as int
  }

  /** The longest run of digits at the front. */
  function DigitRun(s: string): (n: nat)
    ensures n <= |s|
  {
    if s != "" && Digit(s[0]) then 1 + DigitRun(s[1..]) else 0
  }

  predicate AllDigits(s: string) {
    forall i :: 0 <= i < |s| ==> Digit(s[i])
  }

  function DigitsValue(s: string): nat
    requires AllDigits(s)
  {
    if s == "" then 0 else 10 * DigitsValue(s[..|s| - 1]) + DigitValue(s[|s| - 1])
  }

  lemma {:induction false} RunIsDigits(s: string)
    ensures AllDigits(s[..DigitRun(s)])
  {
    if s != "" && Digit(s[0]) {
      RunIsDigits(s[1..]);
      assert s[..DigitRun(s)] == [s[0]] + s[1..][..DigitRun(s[1..])];
    }
  }

  /** A number without fraction or exponent, in the safe range. */
  function ParseNumber(s: string): (r: Option<(Value, string)>)
    ensures r.Some? ==> |r.value.1| < |s|
  {
    var negative := s != "" && s[0] == '-';
    var t := if negative then s[1..] else s;
    var n := DigitRun(t);
    RunIsDigits(t);
    var rest := t[n..];
    if n == 0 || (n > 1 && t[0] == '0') then None
    else if rest != "" && (rest[0] == '.' || rest[0] == 'e' || rest[0] == 'E') then None
    else
      var size: int := DigitsValue(t[..n]);
      var value: int := if negative then -size else size;
      if -0x1F_FFFF_FFFF_FFFF <= value <= 0x1F_FFFF_FFFF_FFFF then Some((Num(value), rest)) else None
  }

  // ----- strings (section 7)

  function HexValue(c: char): Option<nat> {
    if Digit(c) then Some(DigitValue(c))
    else if 'a' <= c <= 'f' then Some(c as int - 'a' as int + 10)
    else if 'A' <= c <= 'F' then Some(c as int - 'A' as int + 10)
    else None
  }

  /** The character of \u and four hexadecimal digits, when it is not a surrogate. */
  function HexChar(s: string): Option<char>
    requires |s| == 4
  {
    var a, b, c, d := HexValue(s[0]), HexValue(s[1]), HexValue(s[2]), HexValue(s[3]);
    if a.None? || b.None? || c.None? || d.None? then None
    else
      var n := 0x1000 * a.value + 0x100 * b.value + 0x10 * c.value + d.value;
      if n < 0xD800 || 0xE000 <= n < 0x10000 then Some(n as char) else None
  }

  /** One character of a string, escaped or not, and the text after it. */
  function ParseChar(s: string): (r: Option<(char, string)>)
    ensures r.Some? ==> |r.value.1| < |s|
  {
    if s == "" || s[0] < ' ' || s[0] == '\"' then None
    else if s[0] != '\\' then Some((s[0], s[1..]))
    else if |s| < 2 then None
    else
      match s[1]
      case '\"' => Some(('\"', s[2..]))
      case '\\' => Some(('\\', s[2..]))
      case '/' => Some(('/', s[2..]))
      case 'b' => Some((8 as char, s[2..]))
      case 'f' => Some((12 as char, s[2..]))
      case 'n' => Some(('\n', s[2..]))
      case 'r' => Some(('\r', s[2..]))
      case 't' => Some(('\t', s[2..]))
      case 'u' =>
        if |s| < 6 then None
        else
          var c := HexChar(s[2..6]);
          if c.None? then None else Some((c.value, s[6..]))
      case _ => None
  }

  /** The rest of a string whose opening quote has been read. */
  function ParseString(s: string): (r: Option<(string, string)>)
    ensures r.Some? ==> |r.value.1| < |s|
    decreases |s|
  {
    if s == "" then None
    else if s[0] == '\"' then Some(("", s[1..]))
    else
      var c := ParseChar(s);
      if c.None? then None
      else
        var rest := ParseString(c.value.1);
        if rest.None? then None else Some(([c.value.0] + rest.value.0, rest.value.1))
  }

  // ----- values (sections 3 to 5)

  /** Setting a property: a repeated key keeps its place and takes the later value. */
  function Put(fields: seq<Field>, f: Field): seq<Field> {
    if Has(fields, f.key) then fields[IndexOf(fields, f.key) := f] else fields + [f]
  }

  function ParseValue(text: string): (r: Option<(Value, string)>)
    ensures r.Some? ==> |r.value.1| < |text|
    decreases |text|, 2
  {
    var s := SkipSpace(text);
    if s == "" then None
    else if s[0] == '\"' then
      var r := ParseString(s[1..]);
      if r.None? then None else Some((Str(r.value.0), r.value.1))
    else if s[0] == '[' then
      var t := SkipSpace(s[1..]);
      if t != "" && t[0] == ']' then Some((Arr([]), t[1..]))
      else
        var r := ParseElements(s[1..]);
        if r.None? then None else Some((Arr(r.value.0), r.value.1))
    else if s[0] == '{' then
      var t := SkipSpace(s[1..]);
      if t != "" && t[0] == '}' then Some((Obj([]), t[1..]))
      else
        var r := ParseMembers(s[1..], []);
        if r.None? then None else Some((Obj(r.value.0), r.value.1))
    else if "null" <= s then Some((Null, s[4..]))
    else if "true" <= s then Some((Bool(true), s[4..]))
    else if "false" <= s then Some((Bool(false), s[5..]))
    else ParseNumber(s)
  }

  /** One or more values and the closing bracket. */
  function ParseElements(s: string): (r: Option<(seq<Value>, string)>)
    ensures r.Some? ==> |r.value.1| < |s|
    decreases |s|, 3
  {
    var v := ParseValue(s);
    if v.None? then None
    else
      var t := SkipSpace(v.value.1);
      if t == "" then None
      else if t[0] == ']' then Some(([v.value.0], t[1..]))
      else if t[0] == ',' then
        var rest := ParseElements(t[1..]);
        if rest.None? then None else Some(([v.value.0] + rest.value.0, rest.value.1))
      else None
  }

  /** A key, a colon and a value. */
  function ParseMember(text: string): (r: Option<(Field, string)>)
    ensures r.Some? ==> |r.value.1| < |text|
    decreases |text|, 1
  {
    var s := SkipSpace(text);
    if s == "" || s[0] != '\"' then None
    else
      var k := ParseString(s[1..]);
      if k.None? then None
      else
        var t := SkipSpace(k.value.1);
        if t == "" || t[0] != ':' then None
        else
          var v := ParseValue(t[1..]);
          if v.None? then None else Some((Field(k.value.0, v.value.0), v.value.1))
  }

  /** One or more members, added to `before`, and the closing brace. */
  function ParseMembers(s: string, before: seq<Field>): (r: Option<(seq<Field>, string)>)
    ensures r.Some? ==> |r.value.1| < |s|
    decreases |s|, 3
  {
    var f := ParseMember(s);
    if f.None? then None
    else
      var fields := Put(before, f.value.0);
      var t := SkipSpace(f.value.1);
      if t == "" then None
      else if t[0] == '}' then Some((fields, t[1..]))
      else if t[0] == ',' then ParseMembers(t[1..], fields)
      else None
  }

  /** JSON.parse and json.loads: one value and nothing after it. */
  function Parse(text: string): Option<Value> {
    var r := ParseValue(text);
    if r.Some? && SkipSpace(r.value.1) == "" then Some(r.value.0) else None
  }

  // ----- reading back numbers

  lemma {:induction false} NatTextDigits(n: nat)
    ensures AllDigits(NatText(n))
    ensures DigitsValue(NatText(n)) == n
    ensures NatText(n)[0] == '0' ==> n == 0
    ensures n == 0 ==> |NatText(n)| == 1
  {
    if n < 10 {
      assert DigitsValue(NatText(n)[..0]) == 0;
    } else {
      NatTextDigits(n / 10);
      assert NatText(n)[..|NatText(n)| - 1] == NatText(n / 10);
    }
  }

  lemma {:induction false} DigitRunOf(a: string, rest: string)
    requires AllDigits(a)
    requires rest == "" || !Digit(rest[0])
    ensures DigitRun(a + rest) == |a|
  {
    if a == "" {
      assert a + rest == rest;
    } else {
      assert (a + rest)[1..] == a[1..] + rest;
      DigitRunOf(a[1..], rest);
    }
  }

  /** Where a value may end: before a comma, a closing bracket, or at the end of the text. */
  predicate Delimited(rest: string) {
    rest == "" || rest[0] == ',' || rest[0] == ']' || rest[0] == '}'
  }

  lemma DigitsRoundTrip(m: nat, rest: string)
    requires Delimited(rest)
    ensures var t := NatText(m) + rest;
            DigitRun(t) == |NatText(m)| && t[..DigitRun(t)] == NatText(m) && t[DigitRun(t)..] == rest
  {
    NatTextDigits(m);
    DigitRunOf(NatText(m), rest);
  }

  lemma ParseNumberOf(negative: bool, m: nat, rest: string)
    requires Delimited(rest) && m <= 0x1F_FFFF_FFFF_FFFF
    ensures ParseNumber((if negative then ['-'] else []) + (NatText(m) + rest)) ==
            Some((Num(if negative then -(m as int) else m), rest))
  {
    var t := NatText(m) + rest;
    var s := (if negative then ['-'] else []) + t;
    NatTextDigits(m);
    DigitsRoundTrip(m, rest);
    assert t[0] == NatText(m)[0] && Digit(t[0]);
    if negative {
      assert s[1..] == t;
    } else {
      assert s == t;
    }
    hide NatText, DigitRun, DigitsValue;
  }

  lemma SignFirst(n: int, rest: string)
    ensures n < 0 ==> IntText(n) + rest == ['-'] + (NatText(-n) + rest)
    ensures n >= 0 ==> IntText(n) + rest == [] + (NatText(n) + rest)
  {
    hide NatText;
  }

  lemma NumberRoundTrip(n: SafeInt, rest: string)
    requires Delimited(rest)
    ensures ParseNumber(IntText(n) + rest) == Some((Num(n), rest))
  {
    hide ParseNumber, NatText, IntText;
    SignFirst(n, rest);
    if n < 0 {
      ParseNumberOf(true, -n, rest);
    } else {
      ParseNumberOf(false, n, rest);
    }
  }

  // ----- reading back strings

  lemma EscapeRoundTrip(c: char, rest: string)
    ensures EscapeChar(c) != "" && EscapeChar(c)[0] != '\"'
    ensures ParseChar(EscapeChar(c) + rest) == Some((c, rest))
  {
    var e := EscapeChar(c);
    var s := e + rest;
    assert s[|e|..] == rest;
    if c < ' ' && |e| == 6 {
      var n := c as int;
      assert s[2..6] == ['0', '0', HexDigit(n / 16), HexDigit(n % 16)];
      HexRoundTrip(n / 16);
      HexRoundTrip(n % 16);
      assert HexValue('0') == Some(0);
      assert HexChar(s[2..6]) == Some(n as char);
      assert n as char == c;
    }
  }

  lemma HexRoundTrip(d: nat)
    requires d < 16
    ensures HexValue(HexDigit(d)) == Some(d)
  {
  }

  lemma {:induction false} StringRoundTrip(a: string, rest: string)
    ensures ParseString(Escape(a) + "\"" + rest) == Some((a, rest))
    decreases |a|
  {
    if a == "" {
      StringEnds(rest);
    } else {
      hide Escape, ParseString, EscapeChar;
      var tail := Escape(a[1..]) + "\"" + rest;
      StringRoundTrip(a[1..], rest);
      StringStep(a[0], tail, a[1..], rest);
      EscapeStep(a, rest);
      assert a == [a[0]] + a[1..];
    }
  }

  lemma StringEnds(rest: string)
    ensures ParseString(Escape("") + "\"" + rest) == Some(("", rest))
  {
    assert Escape("") + "\"" + rest == "\"" + rest;
  }

  lemma EscapeStep(a: string, rest: string)
    requires a != ""
    ensures Escape(a) + "\"" + rest == EscapeChar(a[0]) + (Escape(a[1..]) + "\"" + rest)
  {
    hide EscapeChar;
    assert Escape(a) == EscapeChar(a[0]) + Escape(a[1..]);
    hide Escape;
    Associates(EscapeChar(a[0]), Escape(a[1..]), "\"", rest);
  }

  lemma Associates(a: string, b: string, c: string, d: string)
    ensures a + b + c + d == a + (b + c + d)
  {
  }

  lemma StringStep(c: char, tail: string, a: string, rest: string)
    requires ParseString(tail) == Some((a, rest))
    ensures ParseString(EscapeChar(c) + tail) == Some(([c] + a, rest))
  {
    hide EscapeChar, ParseChar;
    EscapeRoundTrip(c, tail);
  }

  lemma QuoteRoundTrip(a: string, rest: string)
    ensures var s := Quote(a) + rest;
            s[0] == '\"' && ParseString(s[1..]) == Some((a, rest))
  {
    hide Escape, ParseString;
    StringRoundTrip(a, rest);
    Unquoted(Escape(a), rest);
  }

  lemma Unquoted(e: string, rest: string)
    ensures ("\"" + e + "\"" + rest)[0] == '\"' && ("\"" + e + "\"" + rest)[1..] == e + "\"" + rest
  {
  }

  // ----- reading back values

  /** No printed value starts with a space, a bracket that closes, or a comma. */
  lemma PrintStarts(v: Value)
    requires Plain(v)
    ensures Print(v) != "" && !Space(Print(v)[0]) && Print(v)[0] != ']'
  {
    match v
    case Num(n) =>
      NatTextDigits(if n < 0 then -n else n);
      assert n >= 0 ==> Digit(Print(v)[0]);
    case _ =>
  }

  lemma NoSpace(s: string)
    requires s != "" && !Space(s[0])
    ensures SkipSpace(s) == s
  {
  }

  lemma LiteralRoundTrip(v: Value, rest: string)
    requires Plain(v) && (v.Null? || v.Bool?)
    ensures ParseValue(Print(v) + rest) == Some((v, rest))
  {
    hide ParseNumber, SkipSpace;
    match v
    case Null => Literal("null", rest);
    case Bool(true) => Literal("true", rest);
    case Bool(false) => Literal("false", rest);
    case _ =>
  }

  lemma Literal(text: string, rest: string)
    requires text != "" && !Space(text[0])
    ensures var s := text + rest;
            s != "" && s[0] == text[0] && SkipSpace(s) == s && text <= s && s[|text|..] == rest
  {
    NoSpace(text + rest);
  }

  lemma NumberStarts(n: SafeInt, rest: string)
    ensures var s := IntText(n) + rest;
            s != "" && (s[0] == '-' || Digit(s[0]))
  {
    NatTextDigits(if n < 0 then -n else n);
    hide NatText;
    assert (IntText(n) + rest)[0] == IntText(n)[0];
  }

  lemma NotLiteral(s: string)
    requires s != "" && (s[0] == '-' || Digit(s[0]))
    ensures !("null" <= s) && !("true" <= s) && !("false" <= s)
    ensures s[0] != '\"' && s[0] != '[' && s[0] != '{'
  {
    assert "null"[0] == 'n' && "true"[0] == 't' && "false"[0] == 'f';
  }

  lemma NumRoundTrip(n: SafeInt, rest: string)
    requires Delimited(rest)
    ensures ParseValue(IntText(n) + rest) == Some((Num(n), rest))
  {
    hide ParseNumber, IntText, SkipSpace;
    NumberRoundTrip(n, rest);
    NumberStarts(n, rest);
    NotLiteral(IntText(n) + rest);
    NoSpace(IntText(n) + rest);
  }

  lemma StrRoundTrip(a: string, rest: string)
    ensures ParseValue(Quote(a) + rest) == Some((Str(a), rest))
  {
    QuoteRoundTrip(a, rest);
    NoSpace(Quote(a) + rest);
    hide ParseString, SkipSpace, Quote, ParseNumber;
  }

  /** Reading what was printed gives the value back and stops at its end. */
  lemma {:induction false} ParseOfPrint(v: Value, rest: string)
    requires Plain(v) && Delimited(rest)
    ensures ParseValue(Print(v) + rest) == Some((v, rest))
    decreases v, 1
  {
    hide ParseValue, ParseElements, ParseMembers, Join, PrintItems, PrintFields;
    match v
    case Null => LiteralRoundTrip(v, rest);
    case Bool(_) => LiteralRoundTrip(v, rest);
    case Num(n) => NumRoundTrip(n, rest);
    case Str(a) => StrRoundTrip(a, rest);
    case Arr(items) =>
      var t := Join(PrintItems(items)) + ("]" + rest);
      ArrayText(items, rest);
      if items == [] {
        EmptyJoin("]" + rest);
        assert ("]" + rest)[1..] == rest;
      } else {
        ItemsStart(items, "]" + rest);
        ParseOfItems(items, rest);
      }
      ParseArrayStep(t);
    case Obj(fields) =>
      var t := Join(PrintFields(fields)) + ("}" + rest);
      ObjectText(fields, rest);
      if fields == [] {
        EmptyJoin("}" + rest);
        assert ("}" + rest)[1..] == rest;
      } else {
        FieldsStart(fields, "}" + rest);
        ParseOfFields(fields, [], rest);
        assert [] + fields == fields;
      }
      ParseObjectStep(t);
  }

  lemma ArrayText(items: seq<Value>, rest: string)
    ensures Print(Arr(items)) + rest == ['['] + (Join(PrintItems(items)) + ("]" + rest))
  {
    hide Join, PrintItems;
  }

  lemma ObjectText(fields: seq<Field>, rest: string)
    ensures Print(Obj(fields)) + rest == ['{'] + (Join(PrintFields(fields)) + ("}" + rest))
  {
    hide Join, PrintFields;
  }

  lemma ParseArrayStep(t: string)
    requires t != "" && !Space(t[0])
    ensures ParseValue(['['] + t) ==
            if t[0] == ']' then Some((Arr([]), t[1..]))
            else if ParseElements(t).None? then None
            else Some((Arr(ParseElements(t).value.0), ParseElements(t).value.1))
  {
    NoSpace(['['] + t);
    NoSpace(t);
    assert (['['] + t)[1..] == t;
    hide ParseElements, ParseMembers, ParseString, ParseNumber, SkipSpace;
  }

  lemma ParseObjectStep(t: string)
    requires t != "" && !Space(t[0])
    ensures ParseValue(['{'] + t) ==
            if t[0] == '}' then Some((Obj([]), t[1..]))
            else if ParseMembers(t, []).None? then None
            else Some((Obj(ParseMembers(t, []).value.0), ParseMembers(t, []).value.1))
  {
    NoSpace(['{'] + t);
    NoSpace(t);
    assert (['{'] + t)[1..] == t;
    hide ParseElements, ParseMembers, ParseString, ParseNumber, SkipSpace;
  }

  lemma EmptyJoin(close: string)
    ensures Join([]) + close == close
  {
  }

  lemma ItemsStart(items: seq<Value>, rest: string)
    requires items != [] && Plain(items[0])
    ensures var s := Join(PrintItems(items)) + rest;
            s != "" && !Space(s[0]) && s[0] != ']'
  {
    PrintStarts(items[0]);
    assert PrintItems(items)[0] == Print(items[0]);
  }

  lemma FieldsStart(fields: seq<Field>, rest: string)
    requires fields != []
    ensures var s := Join(PrintFields(fields)) + rest;
            s != "" && s[0] == '\"'
  {
    assert PrintFields(fields)[0] == PrintField(fields[0]);
  }

  lemma ElementsStep(text: string, v: Value, close: bool, after: string)
    requires ParseValue(text) == Some((v, (if close then "]" else ",") + after))
    requires !close ==> ParseElements(after).Some?
    ensures ParseElements(text) ==
            if close then Some(([v], after))
            else Some(([v] + ParseElements(after).value.0, ParseElements(after).value.1))
  {
    var t := (if close then "]" else ",") + after;
    NoSpace(t);
    assert t[1..] == after;
    hide ParseValue, SkipSpace;
  }

  lemma JoinCons(p: string, ps: seq<string>, rest: string)
    ensures Join([p] + ps) + rest == if ps == [] then p + rest else p + ("," + (Join(ps) + rest))
  {
    assert ([p] + ps)[1..] == ps;
  }

  /** The text of a list: its first element, then the closing text or a comma and the rest. */
  lemma ItemsText(items: seq<Value>, close: string)
    requires items != []
    ensures Join(PrintItems(items)) + close ==
            if items[1..] == [] then Print(items[0]) + close
            else Print(items[0]) + ("," + (Join(PrintItems(items[1..])) + close))
  {
    hide Print, Join;
    JoinCons(Print(items[0]), PrintItems(items[1..]), close);
  }

  lemma {:induction false} ParseOfItems(items: seq<Value>, rest: string)
    requires items != [] && forall i :: 0 <= i < |items| ==> Plain(items[i])
    ensures ParseElements(Join(PrintItems(items)) + ("]" + rest)) == Some((items, rest))
    decreases items, 0
  {
    hide ParseElements, ParseValue, Print, PrintItems, Join, Plain;
    var first, tail, close := items[0], items[1..], "]" + rest;
    assert items == [first] + tail;
    ItemsText(items, close);
    if tail == [] {
      assert items == [first];
      ParseOfPrint(first, close);
      ElementsStep(Print(first) + close, first, true, rest);
    } else {
      var after := Join(PrintItems(tail)) + close;
      ParseOfItems(tail, rest);
      ParseOfPrint(first, "," + after);
      ElementsStep(Print(first) + ("," + after), first, false, after);
    }
  }

  lemma MemberStep(text: string, key: string, t: string, v: Value, rest: string)
    requires text != "" && text[0] == '\"' && ParseString(text[1..]) == Some((key, [':'] + t))
    requires ParseValue(t) == Some((v, rest))
    ensures ParseMember(text) == Some((Field(key, v), rest))
  {
    NoSpace(text);
    NoSpace([':'] + t);
    assert ([':'] + t)[1..] == t;
    hide ParseValue, ParseString, SkipSpace;
  }

  lemma {:induction false} ParseOfField(f: Field, rest: string)
    requires Plain(f.value) && Delimited(rest)
    ensures ParseMember(PrintField(f) + rest) == Some((f, rest))
    decreases f, 2
  {
    hide ParseMember, ParseValue, ParseString, Print, Quote;
    var t := Print(f.value) + rest;
    assert PrintField(f) + rest == Quote(f.key) + ([':'] + t);
    QuoteRoundTrip(f.key, [':'] + t);
    ParseOfPrint(f.value, rest);
    MemberStep(PrintField(f) + rest, f.key, t, f.value, rest);
  }

  lemma MembersStep(text: string, before: seq<Field>, f: Field, close: bool, after: string)
    requires ParseMember(text) == Some((f, (if close then "}" else ",") + after))
    ensures ParseMembers(text, before) ==
            if close then Some((Put(before, f), after)) else ParseMembers(after, Put(before, f))
  {
    var t := (if close then "}" else ",") + after;
    NoSpace(t);
    assert t[1..] == after;
    hide ParseMember, SkipSpace, Put;
  }

  lemma FieldsText(fields: seq<Field>, close: string)
    requires fields != []
    ensures Join(PrintFields(fields)) + close ==
            if fields[1..] == [] then PrintField(fields[0]) + close
            else PrintField(fields[0]) + ("," + (Join(PrintFields(fields[1..])) + close))
  {
    hide PrintField, Join;
    JoinCons(PrintField(fields[0]), PrintFields(fields[1..]), close);
  }

  lemma {:induction false} ParseOfFields(fields: seq<Field>, before: seq<Field>, rest: string)
    requires fields != [] && Distinct(before + fields)
    requires forall i :: 0 <= i < |fields| ==> Plain(fields[i].value)
    ensures ParseMembers(Join(PrintFields(fields)) + ("}" + rest), before) == Some((before + fields, rest))
    decreases fields, 3
  {
    NewKey(fields, before);
    hide ParseMembers, ParseMember, PrintField, PrintFields, Join, Put, Plain, Distinct;
    var first, tail, close := fields[0], fields[1..], "}" + rest;
    var now := before + [first];
    assert fields == [first] + tail && now + tail == before + fields;
    FieldsText(fields, close);
    if tail == [] {
      assert now == before + fields;
      ParseOfField(first, close);
      MembersStep(PrintField(first) + close, before, first, true, rest);
    } else {
      var after := Join(PrintFields(tail)) + close;
      ParseOfFields(tail, now, rest);
      ParseOfField(first, "," + after);
      MembersStep(PrintField(first) + ("," + after), before, first, false, after);
    }
  }

  lemma NewKey(fields: seq<Field>, before: seq<Field>)
    requires fields != [] && Distinct(before + fields)
    ensures Put(before, fields[0]) == before + [fields[0]]
  {
    var all := before + fields;
    forall i | 0 <= i < |before|
      ensures before[i].key != fields[0].key
    {
      assert all[i] == before[i] && all[|before|] == fields[0];
    }
  }

  /** A whole text: parsing what was printed gives the value back. */
  lemma PrintRoundTrip(v: Value)
    requires Plain(v)
    ensures Parse(Print(v)) == Some(v)
  {
    ParseOfPrint(v, "");
    assert Print(v) + "" == Print(v);
  }
}
