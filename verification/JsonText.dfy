/**
 The text of JSON values: decimal integers, quoted strings, `Print`, which writes a value
 in the order its fields have, and the three canonical serializers of the repository,
 each proved to be `Print` of a normal form.
 */
module JsonText {
  import opened KeyOrder
  import opened Json

  datatype Result<+T> = Ok(value: T) | Err {
    predicate IsFailure() {
      Err?
    }

    function PropagateFailure<U>(): Result<U>
      requires Err?
    {
      Err
    }

    function Extract(): T
      requires Ok?
    {
      value
    }
  }

  function DigitChar(d: nat): char
    requires d < 10
  {
    '0' + d as char
  }

  function NatText(n: nat): (r: string)
    ensures r != ""
  {
    if n < 10 then [DigitChar(n)] else NatText(n / 10) + [DigitChar(n % 10)]
  }

  /** toString(10), and Python's str, of an integer. */
  function IntText(n: int): string {
    if n < 0 then "-" + NatText(-n) else NatText(n)
  }

  function HexDigit(d: nat): char
    requires d < 16
  {
    if d < 10 then '0' + d as char else 'a' + (d - 10) as char
  }

  /** What JSON.stringify, and json.dumps with ensure_ascii off, write for one character. */
  function EscapeChar(c: char): string {
    if c == '\"' then "\\\""
    else if c == '\\' then "\\\\"
    else if c == 8 as char then "\\b"
    else if c == 12 as char then "\\f"
    else if c == '\n' then "\\n"
    else if c == '\r' then "\\r"
    else if c == '\t' then "\\t"
    else if c < ' ' then "\\u00" + [HexDigit(c as int / 16), HexDigit(c as int % 16)]
    else [c]
  }

  function Escape(s: string): string {
    if s == "" then "" else EscapeChar(s[0]) + Escape(s[1..])
  }

  function Quote(s: string): string {
    "\"" + Escape(s) + "\""
  }

  /** parts.join(",") */
  function Join(parts: seq<string>): string {
    if parts == [] then ""
    else if |parts| == 1 then parts[0]
    else parts[0] + "," + Join(parts[1..])
  }

  // ----- plain text

  /** The text of a value in field order; Undefined and BigInt have no JSON text. */
  function Print(v: Value): string
    decreases v, 1
  {
    match v
    case Null => "null"
    case Undefined => ""
    case Bool(b) => if b then "true" else "false"
    case Num(n) => IntText(n)
    case Frac(text) => text
    case BigInt(_) => ""
    case Str(s) => Quote(s)
    case Arr(items) => "[" + Join(PrintItems(items)) + "]"
    case Obj(fields) => "{" + Join(PrintFields(fields)) + "}"
  }

  function PrintItems(items: seq<Value>): (r: seq<string>)
    ensures |r| == |items|
    decreases items, 0
  {
    if items == [] then [] else [Print(items[0])] + PrintItems(items[1..])
  }

  function PrintField(f: Field): string
    decreases f, 2
  {
    Quote(f.key) + ":" + Print(f.value)
  }

  function PrintFields(fields: seq<Field>): (r: seq<string>)
    ensures |r| == |fields|
    decreases fields, 0
  {
    if fields == [] then [] else [PrintField(fields[0])] + PrintFields(fields[1..])
  }

  // ----- normal forms

  /** The fields whose value is not undefined. */
  function Present(fields: seq<Field>): (r: seq<Field>)
    ensures SizeFields(r) <= SizeFields(fields)
    ensures forall f :: f in r ==> f in fields
  {
    if fields == [] then []
    else if fields[0].value.Undefined? then Present(fields[1..])
    else
      var r := [fields[0]] + Present(fields[1..]);
      assert r[1..] == Present(fields[1..]);
      r
  }

  /**
   Fields sorted by `less`, big integers turned into strings, undefined into null; with
   `drop`, undefined fields are left out instead.
   */
  function Form(less: (string, string) -> bool, drop: bool, v: Value): Value
    decreases Size(v), 0
  {
    match v
    case Undefined => Null
    case BigInt(i) => Str(IntText(i))
    case Arr(items) => Arr(FormItems(less, drop, items))
    case Obj(fields) => Obj(FormFields(less, drop, Sort(less, if drop then Present(fields) else fields)))
    case _ => v
  }

  function FormItems(less: (string, string) -> bool, drop: bool, items: seq<Value>): (r: seq<Value>)
    ensures |r| == |items|
    decreases SizeItems(items), 1
  {
    if items == [] then [] else [Form(less, drop, items[0])] + FormItems(less, drop, items[1..])
  }

  function FormFields(less: (string, string) -> bool, drop: bool, fields: seq<Field>): (r: seq<Field>)
    ensures |r| == |fields|
    decreases SizeFields(fields), 1
  {
    if fields == [] then []
    else [Field(fields[0].key, Form(less, drop, fields[0].value))] + FormFields(less, drop, fields[1..])
  }

  // ----- services/infra/src/canonical/json.ts

  /** encode; the type CanonicalValue leaves undefined to the fields of objects. */
  function Encode(v: Value): string
    decreases Size(v), 0
  {
    match v
    case Null => "null"
    case Undefined => "null"
    case Bool(b) => if b then "true" else "false"
    case BigInt(i) => Quote(IntText(i))
    case Num(n) => IntText(n)
    case Frac(text) => text
    case Str(s) => Quote(s)
    case Arr(items) => "[" + Join(EncodeItems(items)) + "]"
    case Obj(fields) => "{" + Join(EncodeFields(Sort(Utf16Less, Present(fields)))) + "}"
  }

  function EncodeItems(items: seq<Value>): seq<string>
    decreases SizeItems(items), 1
  {
    if items == [] then [] else [Encode(items[0])] + EncodeItems(items[1..])
  }

  function EncodeFields(fields: seq<Field>): seq<string>
    decreases SizeFields(fields), 1
  {
    if fields == [] then []
    else [Quote(fields[0].key) + ":" + Encode(fields[0].value)] + EncodeFields(fields[1..])
  }

  // ----- packages/trace/src/serialize.ts

  /** canonicalStringify, which throws on a number that is not an integer. */
  function Stringify(v: Value): Result<string>
    decreases Size(v), 0
  {
    match v
    case Null => Ok("null")
    case Undefined => Ok("null")
    case Str(s) => Ok(Quote(s))
    case Num(n) => Ok(IntText(n))
    case Frac(_) => Err
    case Bool(b) => Ok(if b then "true" else "false")
    case BigInt(i) => Ok("\"" + IntText(i) + "\"")
    case Arr(items) =>
      var parts :- StringifyItems(items);
      Ok("[" + Join(parts) + "]")
    case Obj(fields) =>
      var pairs :- StringifyFields(Sort(Utf16Less, fields));
      Ok("{" + Join(pairs) + "}")
  }

  function StringifyItems(items: seq<Value>): Result<seq<string>>
    decreases SizeItems(items), 1
  {
    if items == [] then Ok([])
    else
      var first :- Stringify(items[0]);
      var rest :- StringifyItems(items[1..]);
      Ok([first] + rest)
  }

  function StringifyFields(fields: seq<Field>): Result<seq<string>>
    decreases SizeFields(fields), 1
  {
    if fields == [] then Ok([])
    else
      var first :- Stringify(fields[0].value);
      var rest :- StringifyFields(fields[1..]);
      Ok([Quote(fields[0].key) + ":" + first] + rest)
  }

  // ----- packages/trace/python/trace.py: serialize_canonical

  /** serialize_canonical, on values json.loads can return: no undefined, no big integers. */
  function PySerialize(v: Value): Result<string>
    decreases Size(v), 0
  {
    match v
    case Null => Ok("null")
    case Bool(b) => Ok(if b then "true" else "false")
    case Num(n) => Ok(IntText(n))
    case Frac(_) => Err
    case Str(s) => Ok(Quote(s))
    case Arr(items) =>
      var parts :- PyItems(items);
      Ok("[" + Join(parts) + "]")
    case Obj(fields) =>
      var parts :- PyFields(Sort(CodePointLess, fields));
      Ok("{" + Join(parts) + "}")
    case Undefined => Err
    case BigInt(_) => Err
  }

  function PyItems(items: seq<Value>): Result<seq<string>>
    decreases SizeItems(items), 1
  {
    if items == [] then Ok([])
    else
      var first :- PySerialize(items[0]);
      var rest :- PyItems(items[1..]);
      Ok([first] + rest)
  }

  function PyFields(fields: seq<Field>): Result<seq<string>>
    decreases SizeFields(fields), 1
  {
    if fields == [] then Ok([])
    else
      var first :- PySerialize(fields[0].value);
      var rest :- PyFields(fields[1..]);
      Ok([Quote(fields[0].key) + ":" + first] + rest)
  }

  // ----- each serializer prints a normal form

  lemma {:induction false} EncodeIsPrint(v: Value)
    ensures Encode(v) == Print(Form(Utf16Less, true, v))
    decreases Size(v), 0
  {
    match v
    case Arr(items) => EncodeItemsArePrinted(items);
    case Obj(fields) => EncodeFieldsArePrinted(Sort(Utf16Less, Present(fields)));
    case BigInt(i) => QuoteDigits(i);
    case _ =>
  }

  lemma {:induction false} EncodeItemsArePrinted(items: seq<Value>)
    ensures EncodeItems(items) == PrintItems(FormItems(Utf16Less, true, items))
    decreases SizeItems(items), 1
  {
    if items != [] {
      EncodeIsPrint(items[0]);
      EncodeItemsArePrinted(items[1..]);
    }
  }

  lemma {:induction false} EncodeFieldsArePrinted(fields: seq<Field>)
    ensures EncodeFields(fields) == PrintFields(FormFields(Utf16Less, true, fields))
    decreases SizeFields(fields), 1
  {
    if fields != [] {
      EncodeIsPrint(fields[0].value);
      EncodeFieldsArePrinted(fields[1..]);
    }
  }

  /** A fractional number occurs somewhere in the value. */
  predicate HasFraction(v: Value) {
    match v
    case Frac(_) => true
    case Arr(items) => exists i :: 0 <= i < |items| && HasFraction(items[i])
    case Obj(fields) => exists i :: 0 <= i < |fields| && HasFraction(fields[i].value)
    case _ => false
  }

  /** Digits and the minus sign need no escape. */
  lemma QuoteDigits(i: int)
    ensures Quote(IntText(i)) == "\"" + IntText(i) + "\""
  {
    DigitsPlain(if i < 0 then -i else i);
    if i < 0 {
      assert IntText(i)[1..] == NatText(-i);
    }
  }

  lemma {:induction false} DigitsPlain(n: nat)
    ensures Escape(NatText(n)) == NatText(n)
  {
    if n >= 10 {
      DigitsPlain(n / 10);
      EscapeAppend(NatText(n / 10), [DigitChar(n % 10)]);
    }
  }

  lemma {:induction false} EscapeAppend(s: string, t: string)
    ensures Escape(s + t) == Escape(s) + Escape(t)
  {
    if s == "" {
      assert s + t == t;
    } else {
      assert (s + t)[1..] == s[1..] + t;
      EscapeAppend(s[1..], t);
    }
  }

  /** canonicalStringify throws exactly when a fraction occurs, and otherwise prints the normal form. */
  lemma {:induction false} StringifyIsPrint(v: Value)
    ensures Stringify(v) == if HasFraction(v) then Err else Ok(Print(Form(Utf16Less, false, v)))
    decreases Size(v), 0
  {
    match v
    case Arr(items) => StringifyItemsArePrinted(items);
    case Obj(fields) =>
      StringifyFieldsArePrinted(Sort(Utf16Less, fields));
      SortKeepsFractions(Utf16Less, fields);
    case BigInt(i) => QuoteDigits(i);
    case _ =>
  }

  lemma {:induction false} StringifyItemsArePrinted(items: seq<Value>)
    ensures StringifyItems(items) ==
            if HasFraction(Arr(items)) then Err else Ok(PrintItems(FormItems(Utf16Less, false, items)))
    decreases SizeItems(items), 1
  {
    if items != [] {
      StringifyIsPrint(items[0]);
      StringifyItemsArePrinted(items[1..]);
      FractionsOfItems(items);
    }
  }

  lemma {:induction false} StringifyFieldsArePrinted(fields: seq<Field>)
    ensures StringifyFields(fields) ==
            if HasFraction(Obj(fields)) then Err else Ok(PrintFields(FormFields(Utf16Less, false, fields)))
    decreases SizeFields(fields), 1
  {
    if fields != [] {
      StringifyIsPrint(fields[0].value);
      StringifyFieldsArePrinted(fields[1..]);
      FractionsOfFields(fields);
    }
  }

  lemma FractionsOfItems(items: seq<Value>)
    requires items != []
    ensures HasFraction(Arr(items)) == (HasFraction(items[0]) || HasFraction(Arr(items[1..])))
  {
    if i :| 0 <= i < |items| && HasFraction(items[i]) {
      if i > 0 {
        assert items[1..][i - 1] == items[i];
      }
    }
    if i :| 0 <= i < |items[1..]| && HasFraction(items[1..][i]) {
      assert items[i + 1] == items[1..][i];
    }
  }

  lemma FractionsOfFields(fields: seq<Field>)
    requires fields != []
    ensures HasFraction(Obj(fields)) == (HasFraction(fields[0].value) || HasFraction(Obj(fields[1..])))
  {
    if i :| 0 <= i < |fields| && HasFraction(fields[i].value) {
      if i > 0 {
        assert fields[1..][i - 1] == fields[i];
      }
    }
    if i :| 0 <= i < |fields[1..]| && HasFraction(fields[1..][i].value) {
      assert fields[i + 1] == fields[1..][i];
    }
  }

  lemma SortKeepsFractions(less: (string, string) -> bool, fields: seq<Field>)
    ensures HasFraction(Obj(Sort(less, fields))) == HasFraction(Obj(fields))
  {
    var r := Sort(less, fields);
    SameElements(r, fields);
    if i :| 0 <= i < |fields| && HasFraction(fields[i].value) {
      assert fields[i] in r;
    }
    if i :| 0 <= i < |r| && HasFraction(r[i].value) {
      assert r[i] in fields;
    }
  }

  /** Python sees no undefined and no big integer, at any depth. */
  predicate FromJson(v: Value) {
    match v
    case Undefined => false
    case BigInt(_) => false
    case Arr(items) => forall i :: 0 <= i < |items| ==> FromJson(items[i])
    case Obj(fields) => forall i :: 0 <= i < |fields| ==> FromJson(fields[i].value)
    case _ => true
  }

  lemma {:induction false} PySerializeIsPrint(v: Value)
    requires FromJson(v)
    ensures PySerialize(v) == if HasFraction(v) then Err else Ok(Print(Form(CodePointLess, true, v)))
    decreases Size(v), 0
  {
    match v
    case Arr(items) => PyItemsArePrinted(items);
    case Obj(fields) =>
      PresentAll(fields);
      var sorted := Sort(CodePointLess, fields);
      SameElements(sorted, fields);
      forall i | 0 <= i < |sorted|
        ensures FromJson(sorted[i].value)
      {
        assert sorted[i] in fields;
      }
      PyFieldsArePrinted(sorted);
      SortKeepsFractions(CodePointLess, fields);
    case _ =>
  }

  lemma {:induction false} PresentAll(fields: seq<Field>)
    requires forall i :: 0 <= i < |fields| ==> !fields[i].value.Undefined?
    ensures Present(fields) == fields
  {
    if fields != [] {
      PresentAll(fields[1..]);
    }
  }

  lemma {:induction false} PyItemsArePrinted(items: seq<Value>)
    requires forall i :: 0 <= i < |items| ==> FromJson(items[i])
    ensures PyItems(items) ==
            if HasFraction(Arr(items)) then Err else Ok(PrintItems(FormItems(CodePointLess, true, items)))
    decreases SizeItems(items), 1
  {
    if items != [] {
      PySerializeIsPrint(items[0]);
      PyItemsArePrinted(items[1..]);
      FractionsOfItems(items);
    }
  }

  lemma {:induction false} PyFieldsArePrinted(fields: seq<Field>)
    requires forall i :: 0 <= i < |fields| ==> FromJson(fields[i].value)
    ensures PyFields(fields) ==
            if HasFraction(Obj(fields)) then Err else Ok(PrintFields(FormFields(CodePointLess, true, fields)))
    decreases SizeFields(fields), 1
  {
    if fields != [] {
      PySerializeIsPrint(fields[0].value);
      PyFieldsArePrinted(fields[1..]);
      FractionsOfFields(fields);
    }
  }
}
