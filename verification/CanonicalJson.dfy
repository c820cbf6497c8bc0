/**
 What the canonical serializers guarantee: the text determines the value and is read back
 to it, the order in which keys were inserted never shows, and the three serializers agree
 wherever they can.
 */
module CanonicalJson {
  import opened KeyOrder
  import opened Json
  import opened JsonText
  import opened CanonicalForm
  import opened JsonParse

  // ----- the text determines the value

  /** The canonical form the server gives a value. */
  function Canon(v: Value): Value {
    Form(Utf16Less, true, v)
  }

  lemma {:induction false} PlainHasNoFraction(v: Value)
    requires Plain(v)
    ensures !HasFraction(v) && WellFormed(v) && FromJson(v)
  {
    match v
    case Arr(items) =>
      forall i | 0 <= i < |items|
        ensures !HasFraction(items[i]) && WellFormed(items[i]) && FromJson(items[i])
      {
        PlainHasNoFraction(items[i]);
      }
    case Obj(fields) =>
      forall i | 0 <= i < |fields|
        ensures !HasFraction(fields[i].value) && WellFormed(fields[i].value) && FromJson(fields[i].value)
      {
        PlainHasNoFraction(fields[i].value);
      }
    case _ =>
  }

  lemma CanonIsCanonical(v: Value)
    requires WellFormed(v) && !HasFraction(v)
    ensures Canonical(Utf16Less, Canon(v)) && Plain(Canon(v))
  {
    Utf16IsStrictTotal();
    FormIsCanonical(Utf16Less, true, v);
    CanonicalIsPlain(Utf16Less, Canon(v));
  }

  /**
   Canonical text read back: in front of anything that can follow a value, reading stops
   exactly where the text ends, and yields the canonical form.
   */
  lemma EncodeRoundTrip(v: Value, rest: string)
    requires WellFormed(v) && !HasFraction(v) && Delimited(rest)
    ensures ParseValue(Encode(v) + rest) == Some((Canon(v), rest))
    ensures Parse(Encode(v)) == Some(Canon(v))
  {
    EncodeIsPrint(v);
    CanonIsCanonical(v);
    ParseOfPrint(Canon(v), rest);
    PrintRoundTrip(Canon(v));
  }

  /** What is read back is the value that was printed, up to the order of keys. */
  lemma CanonIsSame(v: Value)
    requires Plain(v)
    ensures Same(v, Canon(v))
  {
    PlainHasNoFraction(v);
    CanonIsCanonical(v);
    Utf16IsStrictTotal();
    FormOfCanonical(Utf16Less, true, Canon(v));
    FormsSame(Utf16Less, v, Canon(v));
  }

  /** Equal texts, whatever follows them, come from equal values and leave equal rests. */
  lemma EncodeDetermines(v: Value, w: Value, r: string, q: string)
    requires Plain(v) && Plain(w) && Delimited(r) && Delimited(q)
    ensures Encode(v) + r == Encode(w) + q <==> Same(v, w) && r == q
  {
    hide Encode, Plain, WellFormed, HasFraction, Same, Delimited, StrictTotal, Form, ParseValue, Utf16Less;
    PlainHasNoFraction(v);
    PlainHasNoFraction(w);
    Utf16IsStrictTotal();
    if Encode(v) + r == Encode(w) + q {
      EncodeRoundTrip(v, r);
      EncodeRoundTrip(w, q);
      FormsSame(Utf16Less, v, w);
    }
    if Same(v, w) {
      SameForms(Utf16Less, true, v, w);
      EncodeIsPrint(v);
      EncodeIsPrint(w);
    }
  }

  // ----- insertion order never shows

  /** A normal form that keeps every field keeps every fraction. */
  lemma {:induction false} FormKeepsFractions(less: (string, string) -> bool, v: Value)
    ensures HasFraction(Form(less, false, v)) == HasFraction(v)
    decreases Size(v), 1
  {
    match v
    case Arr(items) => ItemFractions(less, items);
    case Obj(fields) =>
      SortKeepsFractions(less, fields);
      FieldFractions(less, Sort(less, fields));
    case _ =>
  }

  lemma {:induction false} ItemFractions(less: (string, string) -> bool, items: seq<Value>)
    ensures HasFraction(Arr(FormItems(less, false, items))) == HasFraction(Arr(items))
    decreases SizeItems(items), 2
  {
    if items != [] {
      FormKeepsFractions(less, items[0]);
      ItemFractions(less, items[1..]);
      FractionsOfItems(items);
      FractionsOfItems(FormItems(less, false, items));
    }
  }

  lemma {:induction false} FieldFractions(less: (string, string) -> bool, fields: seq<Field>)
    ensures HasFraction(Obj(FormFields(less, false, fields))) == HasFraction(Obj(fields))
    decreases SizeFields(fields), 2
  {
    if fields != [] {
      FormKeepsFractions(less, fields[0].value);
      FieldFractions(less, fields[1..]);
      FractionsOfFields(fields);
      FractionsOfFields(FormFields(less, false, fields));
    }
  }

  /** Values that differ only in key order, at any depth, get the same text from either side. */
  lemma OrderNeverShows(v: Value, w: Value)
    requires WellFormed(v) && WellFormed(w) && Same(v, w)
    ensures Encode(v) == Encode(w)
    ensures Stringify(v) == Stringify(w)
  {
    Utf16IsStrictTotal();
    SameForms(Utf16Less, true, v, w);
    EncodeIsPrint(v);
    EncodeIsPrint(w);
    SameForms(Utf16Less, false, v, w);
    StringifyIsPrint(v);
    StringifyIsPrint(w);
    FormKeepsFractions(Utf16Less, v);
    FormKeepsFractions(Utf16Less, w);
  }

  // ----- what becomes of the fields of an object

  /** The field called `k` in a normal form comes from the field called `k`. */
  lemma FormOfField(less: (string, string) -> bool, drop: bool, fields: seq<Field>, k: string)
    requires StrictTotal(less) && Distinct(fields)
    ensures var g := FormFields(less, drop, Sort(less, Kept(drop, fields)));
            (Has(g, k) <==> Has(fields, k) && !(drop && Get(fields, k).Undefined?)) &&
            (Has(g, k) ==> Get(g, k) == Form(less, drop, Get(fields, k)))
  {
    hide Form, FormFields, Sort, StrictTotal, SortedBy;
    var sorted := Sort(less, Kept(drop, fields));
    var g := FormFields(less, drop, sorted);
    KeysOfSort(less, Kept(drop, fields));
    assert k in Keys(sorted) <==> Has(fields, k) && !(drop && Get(fields, k).Undefined?) by {
      KeptKey(fields, k);
    }
    if Has(g, k) {
      var i := IndexOf(g, k);
      FormFieldsAt(less, drop, sorted, i);
      KeptField(less, drop, fields, i);
      assert sorted[i].key in Keys(sorted);
    }
    if k in Keys(sorted) {
      var i :| 0 <= i < |sorted| && sorted[i].key == k;
      FormFieldsAt(less, drop, sorted, i);
    }
  }

  /**
   Reading the server's text of an object gives, in ascending order, exactly the keys whose
   value is not undefined, each with the canonical form of its value.
   */
  lemma EncodedFields(fields: seq<Field>, k: string)
    requires WellFormed(Obj(fields)) && !HasFraction(Obj(fields))
    ensures var r := Parse(Encode(Obj(fields)));
            r.Some? && r.value.Obj? && SortedBy(Utf16Less, r.value.fields) &&
            (Has(r.value.fields, k) <==> Has(fields, k) && !Get(fields, k).Undefined?) &&
            (Has(r.value.fields, k) ==> Get(r.value.fields, k) == Canon(Get(fields, k)))
  {
    EncodeRoundTrip(Obj(fields), "");
    CanonIsCanonical(Obj(fields));
    Utf16IsStrictTotal();
    FormOfField(Utf16Less, true, fields, k);
  }

  /** The client's text keeps every key; an undefined value is written as null. */
  lemma StringifiedFields(fields: seq<Field>, k: string)
    requires WellFormed(Obj(fields)) && !HasFraction(Obj(fields))
    ensures var t := Stringify(Obj(fields));
            t.Ok? &&
            var r := Parse(t.value);
            r.Some? && r.value.Obj? && SortedBy(Utf16Less, r.value.fields) &&
            (Has(r.value.fields, k) <==> Has(fields, k)) &&
            (Has(r.value.fields, k) && Get(fields, k).Undefined? ==> Get(r.value.fields, k) == Null)
  {
    var v := Obj(fields);
    Utf16IsStrictTotal();
    StringifyIsPrint(v);
    FormIsCanonical(Utf16Less, false, v);
    CanonicalIsPlain(Utf16Less, Form(Utf16Less, false, v));
    PrintRoundTrip(Form(Utf16Less, false, v));
    FormOfField(Utf16Less, false, fields, k);
  }

  /** Both encoders write a big integer as the string of its digits, and a lone undefined as null. */
  lemma WrittenForJson(i: int)
    ensures Parse(Encode(BigInt(i))) == Some(Str(IntText(i))) && Parse(Encode(Undefined)) == Some(Null)
    ensures Stringify(BigInt(i)) == Ok(Encode(BigInt(i))) && Stringify(Undefined) == Ok(Encode(Undefined))
  {
    EncodeRoundTrip(BigInt(i), "");
    EncodeRoundTrip(Undefined, "");
    QuoteDigits(i);
  }

  // ----- client and server

  /**
   What JSON.parse makes of the client's text is a JSON value, and the server's canonical
   text of it is the client's text again.
   */
  lemma HandOff(t: Value)
    requires WellFormed(t) && Stringify(t).Ok?
    ensures var text := Stringify(t).value;
            Parse(text).Some? && Plain(Parse(text).value) && Encode(Parse(text).value) == text
  {
    Utf16IsStrictTotal();
    StringifyIsPrint(t);
    var p := Form(Utf16Less, false, t);
    FormIsCanonical(Utf16Less, false, t);
    CanonicalIsPlain(Utf16Less, p);
    PrintRoundTrip(p);
    FormOfCanonical(Utf16Less, true, p);
    EncodeIsPrint(p);
  }

  /** So it is for an object that holds the parsed bindings in any other order. */
  lemma HandOffInAnyOrder(t: Value, q: Value)
    requires WellFormed(t) && Stringify(t).Ok? && WellFormed(q)
    requires Parse(Stringify(t).value).Some? && Same(q, Parse(Stringify(t).value).value)
    ensures Encode(q) == Stringify(t).value
  {
    HandOff(t);
    var p := Parse(Stringify(t).value).value;
    PlainHasNoFraction(p);
    OrderNeverShows(q, p);
  }

  // ----- Python

  /** No object in the value has two keys that clash. */
  predicate NoClash(v: Value) {
    match v
    case Arr(items) => forall i :: 0 <= i < |items| ==> NoClash(items[i])
    case Obj(fields) => KeysAgree(fields) && forall i :: 0 <= i < |fields| ==> NoClash(fields[i].value)
    case _ => true
  }

  predicate KeysAgree(fields: seq<Field>) {
    forall i, j :: 0 <= i < |fields| && 0 <= j < |fields| && i != j ==> !KeysClash(fields[i].key, fields[j].key)
  }

  lemma {:induction false} ClashSymmetric(s: string, t: string)
    ensures KeysClash(s, t) == KeysClash(t, s)
  {
    if s != "" && t != "" && s[0] == t[0] {
      ClashSymmetric(s[1..], t[1..]);
    }
  }

  /** The two sorted orders of an object coincide exactly when none of its keys clash. */
  lemma SortsAgreeIff(fields: seq<Field>)
    requires Distinct(fields)
    ensures KeySeq(Sort(CodePointLess, fields)) == KeySeq(Sort(Utf16Less, fields)) <==> KeysAgree(fields)
  {
    Utf16IsStrictTotal();
    CodePointIsStrictTotal();
    var f, g := Sort(CodePointLess, fields), Sort(Utf16Less, fields);
    SortSorts(CodePointLess, fields);
    SortSorts(Utf16Less, fields);
    SameElements(f, fields);
    SameElements(g, fields);
    hide Sort, KeysClash, KeysAgree, Utf16Less, CodePointLess, StrictTotal;
    if KeySeq(f) == KeySeq(g) {
      SameOrderNoClash(f, g);
      AgreeTransfers(f, fields);
    }
    if KeysAgree(fields) {
      SortedIsDistinct(CodePointLess, f);
      AgreeTransfers(fields, f);
      NoClashSorted(f);
      SortedKeysUnique(Utf16Less, f, g);
    }
  }

  lemma AgreeTransfers(f: seq<Field>, g: seq<Field>)
    requires Distinct(g) && KeysAgree(f)
    requires forall x :: x in g ==> x in f
    ensures KeysAgree(g)
  {
    forall i, j | 0 <= i < |g| && 0 <= j < |g| && i != j
      ensures !KeysClash(g[i].key, g[j].key)
    {
      assert g[i] in f && g[j] in f;
      var a :| 0 <= a < |f| && f[a] == g[i];
      var b :| 0 <= b < |f| && f[b] == g[j];
      assert a != b;
    }
  }

  lemma NoClashSorted(f: seq<Field>)
    requires SortedBy(CodePointLess, f) && KeysAgree(f)
    ensures SortedBy(Utf16Less, f)
  {
    CodePointIsStrictTotal();
    forall i, j | 0 <= i < j < |f|
      ensures Utf16Less(f[i].key, f[j].key)
    {
      assert CodePointLess(f[i].key, f[j].key);
      OrdersDisagreeIff(f[i].key, f[j].key);
    }
  }

  lemma SameOrderNoClash(f: seq<Field>, g: seq<Field>)
    requires SortedBy(CodePointLess, f) && SortedBy(Utf16Less, g) && KeySeq(f) == KeySeq(g)
    ensures KeysAgree(f)
  {
    CodePointIsStrictTotal();
    assert |f| == |KeySeq(f)| == |g|;
    forall i, j | 0 <= i < |f| && 0 <= j < |f| && i != j
      ensures !KeysClash(f[i].key, f[j].key)
    {
      var a, b := if i < j then i else j, if i < j then j else i;
      assert KeySeq(f)[a] == KeySeq(g)[a] && KeySeq(f)[b] == KeySeq(g)[b];
      assert CodePointLess(f[a].key, f[b].key) && Utf16Less(f[a].key, f[b].key);
      OrdersDisagreeIff(f[a].key, f[b].key);
      ClashSymmetric(f[a].key, f[b].key);
    }
  }

  /** An object's sorted fields are fixed by its sorted keys. */
  lemma SortedFromKeys(less: (string, string) -> bool, other: (string, string) -> bool, fields: seq<Field>)
    requires Distinct(fields) && KeySeq(Sort(less, fields)) == KeySeq(Sort(other, fields))
    ensures Sort(less, fields) == Sort(other, fields)
  {
    var f, g := Sort(less, fields), Sort(other, fields);
    assert |f| == |KeySeq(f)| == |KeySeq(g)| == |g|;
    forall i | 0 <= i < |f|
      ensures f[i] == g[i]
    {
      assert KeySeq(f)[i] == KeySeq(g)[i];
      SortedField(less, fields, i);
      SortedField(other, fields, i);
    }
  }

  lemma {:induction false} FormsAgreeIff(v: Value)
    requires Plain(v)
    ensures Form(CodePointLess, true, v) == Form(Utf16Less, true, v) <==> NoClash(v)
    decreases Size(v)
  {
    match v
    case Arr(items) =>
      var a, b := FormItems(CodePointLess, true, items), FormItems(Utf16Less, true, items);
      forall i | 0 <= i < |items|
        ensures a[i] == b[i] <==> NoClash(items[i])
      {
        FormItemsAt(CodePointLess, true, items, i);
        FormItemsAt(Utf16Less, true, items, i);
        SizeOfItem(items, i);
        FormsAgreeIff(items[i]);
      }
      assert a == b <==> forall i :: 0 <= i < |items| ==> a[i] == b[i];
    case Obj(fields) =>
      PlainHasNoUndefined(fields);
      SortsAgreeIff(fields);
      if KeysAgree(fields) {
        SortedFromKeys(CodePointLess, Utf16Less, fields);
        FieldFormsAgreeIff(fields);
      } else {
        KeysOfFormDiffer(fields);
      }
    case _ =>
  }

  lemma KeysOfFormDiffer(fields: seq<Field>)
    requires KeySeq(Sort(CodePointLess, fields)) != KeySeq(Sort(Utf16Less, fields))
    ensures FormFields(CodePointLess, true, Sort(CodePointLess, fields)) !=
            FormFields(Utf16Less, true, Sort(Utf16Less, fields))
  {
    KeySeqOfForm(CodePointLess, Sort(CodePointLess, fields));
    KeySeqOfForm(Utf16Less, Sort(Utf16Less, fields));
  }

  lemma KeySeqOfForm(less: (string, string) -> bool, fields: seq<Field>)
    ensures KeySeq(FormFields(less, true, fields)) == KeySeq(fields)
  {
    forall i | 0 <= i < |fields|
      ensures FormFields(less, true, fields)[i].key == fields[i].key
    {
      FormFieldsAt(less, true, fields, i);
    }
  }

  lemma {:induction false} FieldFormsAgreeIff(fields: seq<Field>)
    requires Plain(Obj(fields)) && Sort(CodePointLess, fields) == Sort(Utf16Less, fields)
    ensures FormFields(CodePointLess, true, Sort(CodePointLess, fields)) ==
            FormFields(Utf16Less, true, Sort(Utf16Less, fields)) <==>
            forall i :: 0 <= i < |fields| ==> NoClash(fields[i].value)
    decreases Size(Obj(fields)), 0
  {
    var f := Sort(Utf16Less, fields);
    var a, b := FormFields(CodePointLess, true, f), FormFields(Utf16Less, true, f);
    SameElements(f, fields);
    forall i | 0 <= i < |f|
      ensures a[i] == b[i] <==> NoClash(f[i].value)
    {
      FormFieldsAt(CodePointLess, true, f, i);
      FormFieldsAt(Utf16Less, true, f, i);
      assert f[i] in fields;
      var j :| 0 <= j < |fields| && fields[j] == f[i];
      SizeOfField(fields, j);
      FormsAgreeIff(f[i].value);
    }
    assert a == b <==> forall i :: 0 <= i < |f| ==> a[i] == b[i];
    if a == b {
      forall i | 0 <= i < |fields|
        ensures NoClash(fields[i].value)
      {
        assert fields[i] in f;
        var j :| 0 <= j < |f| && f[j] == fields[i];
        assert a[j] == b[j];
      }
    }
    if forall i :: 0 <= i < |fields| ==> NoClash(fields[i].value) {
      forall i | 0 <= i < |f|
        ensures a[i] == b[i]
      {
        assert f[i] in fields;
      }
    }
  }

  /** Python writes the server's text for a JSON value exactly when no two keys of an object clash. */
  lemma PythonAgreesIff(v: Value)
    requires Plain(v)
    ensures PySerialize(v) == Ok(Encode(v)) <==> NoClash(v)
  {
    PlainHasNoFraction(v);
    PySerializeIsPrint(v);
    EncodeIsPrint(v);
    FormsAgreeIff(v);
    CodePointIsStrictTotal();
    FormIsCanonical(CodePointLess, true, v);
    CanonicalIsPlain(CodePointLess, Form(CodePointLess, true, v));
    PrintRoundTrip(Form(CodePointLess, true, v));
    CanonIsCanonical(v);
    PrintRoundTrip(Canon(v));
  }

  /** Keys within the Basic Multilingual Plane never clash. */
  lemma {:induction false} SurrogateFreeKeys(s: string, t: string)
    requires forall i :: 0 <= i < |s| ==> (s[i] as int) < 0x10000
    requires forall i :: 0 <= i < |t| ==> (t[i] as int) < 0x10000
    ensures !KeysClash(s, t)
  {
    if s != "" && t != "" && s[0] == t[0] {
      SurrogateFreeKeys(s[1..], t[1..]);
    }
  }

  /** The disagreement is real: two keys on which JavaScript and Python print different texts. */
  lemma PythonDisagrees()
    ensures var v := Obj([Field("\U{FF01}", Null), Field("\U{1F600}", Null)]);
            Plain(v) && PySerialize(v) != Ok(Encode(v))
  {
    var v := Obj([Field("\U{FF01}", Null), Field("\U{1F600}", Null)]);
    assert KeysClash("\U{FF01}", "\U{1F600}");
    assert v.fields[0].key == "\U{FF01}" && v.fields[1].key == "\U{1F600}";
    assert v.fields[0].key[0] != v.fields[1].key[0];
    PythonAgreesIff(v);
  }
}
