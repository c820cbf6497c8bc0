/**
 Canonical values: what a serializer has made of a value just before printing it. Two
 values have the same canonical form exactly when they are the same up to key order.
 */
module CanonicalForm {
  import opened KeyOrder
  import opened Json
  import opened JsonText

  /** Every object in the value has different keys, as JavaScript and Python objects do. */
  predicate WellFormed(v: Value) {
    match v
    case Arr(items) => forall i :: 0 <= i < |items| ==> WellFormed(items[i])
    case Obj(fields) => Distinct(fields) && forall i :: 0 <= i < |fields| ==> WellFormed(fields[i].value)
    case _ => true
  }

  /** JSON proper with integer numbers: no undefined, no big integer, no fraction. */
  predicate Plain(v: Value) {
    match v
    case Undefined => false
    case Frac(_) => false
    case BigInt(_) => false
    case Arr(items) => forall i :: 0 <= i < |items| ==> Plain(items[i])
    case Obj(fields) => Distinct(fields) && forall i :: 0 <= i < |fields| ==> Plain(fields[i].value)
    case _ => true
  }

  /** Plain, and the keys of every object are in order. */
  ghost predicate Canonical(less: (string, string) -> bool, v: Value) {
    match v
    case Undefined => false
    case Frac(_) => false
    case BigInt(_) => false
    case Arr(items) => forall i :: 0 <= i < |items| ==> Canonical(less, items[i])
    case Obj(fields) => SortedBy(less, fields) && forall i :: 0 <= i < |fields| ==> Canonical(less, fields[i].value)
    case _ => true
  }

  lemma {:induction false} FormItemsAt(less: (string, string) -> bool, drop: bool, items: seq<Value>, i: nat)
    requires i < |items|
    ensures FormItems(less, drop, items)[i] == Form(less, drop, items[i])
    decreases i
  {
    if i > 0 {
      FormItemsAt(less, drop, items[1..], i - 1);
    }
  }

  lemma {:induction false} FormFieldsAt(less: (string, string) -> bool, drop: bool, fields: seq<Field>, i: nat)
    requires i < |fields|
    ensures FormFields(less, drop, fields)[i] == Field(fields[i].key, Form(less, drop, fields[i].value))
    decreases i
  {
    if i > 0 {
      FormFieldsAt(less, drop, fields[1..], i - 1);
    }
  }

  lemma {:induction false} PresentDistinct(fields: seq<Field>)
    requires Distinct(fields)
    ensures Distinct(Present(fields))
  {
    if fields != [] {
      PresentDistinct(fields[1..]);
      var rest := Present(fields[1..]);
      forall i | 0 <= i < |rest|
        ensures rest[i].key != fields[0].key
      {
        assert rest[i] in fields[1..];
      }
    }
  }

  /** Every normal form of a value without fractions is canonical. */
  lemma {:induction false} FormIsCanonical(less: (string, string) -> bool, drop: bool, v: Value)
    requires StrictTotal(less) && WellFormed(v) && !HasFraction(v)
    ensures Canonical(less, Form(less, drop, v))
    decreases Size(v)
  {
    match v
    case Arr(items) =>
      forall i | 0 <= i < |items|
        ensures Canonical(less, FormItems(less, drop, items)[i])
      {
        FormItemsAt(less, drop, items, i);
        SizeOfItem(items, i);
        FormIsCanonical(less, drop, items[i]);
      }
    case Obj(fields) =>
      KeptDistinct(drop, fields);
      SortSorts(less, Kept(drop, fields));
      var sorted := Sort(less, Kept(drop, fields));
      var r := FormFields(less, drop, sorted);
      forall i | 0 <= i < |sorted|
        ensures r[i].key == sorted[i].key && Canonical(less, r[i].value)
      {
        FormFieldsAt(less, drop, sorted, i);
        KeptField(less, drop, fields, i);
        SizeOfField(fields, IndexOf(fields, sorted[i].key));
        FormIsCanonical(less, drop, sorted[i].value);
      }
    case _ =>
  }

  lemma {:induction false} SizeOfItem(items: seq<Value>, i: nat)
    requires i < |items|
    ensures Size(items[i]) < Size(Arr(items))
    decreases i
  {
    if i > 0 {
      SizeOfItem(items[1..], i - 1);
    }
  }

  lemma {:induction false} SizeOfField(fields: seq<Field>, i: nat)
    requires i < |fields|
    ensures Size(fields[i].value) < Size(Obj(fields))
    decreases i
  {
    if i > 0 {
      SizeOfField(fields[1..], i - 1);
    }
  }

  lemma {:induction false} CanonicalIsPlain(less: (string, string) -> bool, v: Value)
    requires StrictTotal(less) && Canonical(less, v)
    ensures Plain(v)
  {
    match v
    case Arr(items) =>
      forall i | 0 <= i < |items|
        ensures Plain(items[i])
      {
        CanonicalIsPlain(less, items[i]);
      }
    case Obj(fields) =>
      SortedIsDistinct(less, fields);
      forall i | 0 <= i < |fields|
        ensures Plain(fields[i].value)
      {
        CanonicalIsPlain(less, fields[i].value);
      }
    case _ =>
  }

  /** A canonical value is its own normal form. */
  lemma {:induction false} FormOfCanonical(less: (string, string) -> bool, drop: bool, v: Value)
    requires StrictTotal(less) && Canonical(less, v)
    ensures Form(less, drop, v) == v
    decreases Size(v)
  {
    match v
    case Arr(items) =>
      forall i | 0 <= i < |items|
        ensures FormItems(less, drop, items)[i] == items[i]
      {
        FormItemsAt(less, drop, items, i);
        SizeOfItem(items, i);
        FormOfCanonical(less, drop, items[i]);
      }
      assert FormItems(less, drop, items) == items;
    case Obj(fields) =>
      PresentAll(fields);
      SortSorted(less, fields);
      forall i | 0 <= i < |fields|
        ensures FormFields(less, drop, fields)[i] == fields[i]
      {
        FormFieldsAt(less, drop, fields, i);
        SizeOfField(fields, i);
        FormOfCanonical(less, drop, fields[i].value);
      }
      assert FormFields(less, drop, fields) == fields;
    case _ =>
  }

  // ----- equality up to key order

  /** The same value, except that objects may list their fields in different orders. */
  predicate Same(v: Value, w: Value)
    decreases v
  {
    match v
    case Arr(items) => w.Arr? && |w.items| == |items| &&
      forall i :: 0 <= i < |items| ==> Same(items[i], w.items[i])
    case Obj(fields) => w.Obj? && Keys(w.fields) == Keys(fields) &&
      forall i :: 0 <= i < |fields| ==>
        Has(w.fields, fields[i].key) && Same(fields[i].value, Get(w.fields, fields[i].key))
    case _ => v == w
  }

  lemma GetOf(fields: seq<Field>, i: nat)
    requires Distinct(fields) && i < |fields|
    ensures Has(fields, fields[i].key) && Get(fields, fields[i].key) == fields[i].value
  {
    assert Has(fields, fields[i].key);
    var j := IndexOf(fields, fields[i].key);
    assert fields[j].key == fields[i].key;
  }

  lemma KeysOfSort(less: (string, string) -> bool, fields: seq<Field>)
    ensures Keys(Sort(less, fields)) == Keys(fields)
  {
    SameElements(Sort(less, fields), fields);
  }

  /** Sorting does not change what a key is bound to. */
  lemma SortedField(less: (string, string) -> bool, fields: seq<Field>, i: nat)
    requires Distinct(fields) && i < |Sort(less, fields)|
    ensures var f := Sort(less, fields)[i];
            Has(fields, f.key) && Get(fields, f.key) == f.value
  {
    var f := Sort(less, fields)[i];
    SameElements(Sort(less, fields), fields);
    assert f in fields;
    var j :| 0 <= j < |fields| && fields[j] == f;
    GetOf(fields, j);
  }

  lemma PlainHasNoUndefined(fields: seq<Field>)
    requires Plain(Obj(fields))
    ensures Present(fields) == fields
  {
    PresentAll(fields);
  }

  /** The fields a serializer keeps. */
  function Kept(drop: bool, fields: seq<Field>): seq<Field> {
    if drop then Present(fields) else fields
  }

  lemma {:induction false} InPresent(fields: seq<Field>, f: Field)
    requires f in fields && !f.value.Undefined?
    ensures f in Present(fields)
  {
    if f != fields[0] {
      assert f in fields[1..];
      InPresent(fields[1..], f);
    }
  }

  lemma {:induction false} PresentDefined(fields: seq<Field>)
    ensures forall f :: f in Present(fields) ==> !f.value.Undefined?
  {
    if fields != [] {
      PresentDefined(fields[1..]);
    }
  }

  lemma KeptDistinct(drop: bool, fields: seq<Field>)
    requires Distinct(fields)
    ensures Distinct(Kept(drop, fields))
  {
    PresentDistinct(fields);
  }

  lemma KeptKey(fields: seq<Field>, k: string)
    requires Distinct(fields)
    ensures k in Keys(Present(fields)) <==> Has(fields, k) && !Get(fields, k).Undefined?
  {
    var a := Present(fields);
    PresentDefined(fields);
    if k in Keys(a) {
      var i :| 0 <= i < |a| && a[i].key == k;
      assert a[i] in a && a[i] in fields;
      var j :| 0 <= j < |fields| && fields[j] == a[i];
      GetOf(fields, j);
    }
    if Has(fields, k) && !Get(fields, k).Undefined? {
      InPresent(fields, fields[IndexOf(fields, k)]);
      var i :| 0 <= i < |a| && a[i] == fields[IndexOf(fields, k)];
    }
  }

  /** Objects that are the same up to order keep the same keys. */
  lemma SameKept(drop: bool, fields: seq<Field>, gields: seq<Field>)
    requires Distinct(fields) && Distinct(gields) && Same(Obj(fields), Obj(gields))
    ensures Keys(Kept(drop, fields)) == Keys(Kept(drop, gields))
  {
    if drop {
      forall k
        ensures k in Keys(Present(fields)) <==> k in Keys(Present(gields))
      {
        KeptKey(fields, k);
        KeptKey(gields, k);
        assert Has(fields, k) <==> k in Keys(fields);
        assert Has(gields, k) <==> k in Keys(gields);
        if Has(fields, k) {
          var j := IndexOf(fields, k);
          assert Same(fields[j].value, Get(gields, k));
        }
      }
    }
  }

  /** The sorted fields that are kept carry the bindings of the object. */
  lemma KeptField(less: (string, string) -> bool, drop: bool, fields: seq<Field>, i: nat)
    requires Distinct(fields) && i < |Sort(less, Kept(drop, fields))|
    ensures var f := Sort(less, Kept(drop, fields))[i];
            f in fields && Has(fields, f.key) && Get(fields, f.key) == f.value
  {
    var f := Sort(less, Kept(drop, fields))[i];
    SameElements(Sort(less, Kept(drop, fields)), Kept(drop, fields));
    assert f in fields;
    var j :| 0 <= j < |fields| && fields[j] == f;
    GetOf(fields, j);
  }

  /** Values that are the same up to key order have the same normal forms... */
  lemma {:induction false} SameForms(less: (string, string) -> bool, drop: bool, v: Value, w: Value)
    requires StrictTotal(less) && WellFormed(v) && WellFormed(w) && Same(v, w)
    ensures Form(less, drop, v) == Form(less, drop, w)
    decreases Size(v)
  {
    match v
    case Arr(items) =>
      var a, b := FormItems(less, drop, items), FormItems(less, drop, w.items);
      forall i | 0 <= i < |items|
        ensures a[i] == b[i]
      {
        FormItemsAt(less, drop, items, i);
        FormItemsAt(less, drop, w.items, i);
        SizeOfItem(items, i);
        SameForms(less, drop, items[i], w.items[i]);
      }
      assert a == b;
    case Obj(fields) =>
      KeptDistinct(drop, fields);
      KeptDistinct(drop, w.fields);
      SameKept(drop, fields, w.fields);
      SameKeySeq(less, Kept(drop, fields), Kept(drop, w.fields));
      var f, g := Sort(less, Kept(drop, fields)), Sort(less, Kept(drop, w.fields));
      var a, b := FormFields(less, drop, f), FormFields(less, drop, g);
      forall i | 0 <= i < |f|
        ensures a[i] == b[i]
      {
        FormFieldsAt(less, drop, f, i);
        FormFieldsAt(less, drop, g, i);
        assert KeySeq(f)[i] == KeySeq(g)[i];
        KeptField(less, drop, fields, i);
        KeptField(less, drop, w.fields, i);
        var j := IndexOf(fields, f[i].key);
        SizeOfField(fields, j);
        assert Same(fields[j].value, Get(w.fields, fields[j].key));
        SameForms(less, drop, f[i].value, g[i].value);
      }
      assert a == b;
    case _ =>
  }

  lemma SameKeySeq(less: (string, string) -> bool, fields: seq<Field>, gields: seq<Field>)
    requires StrictTotal(less) && Distinct(fields) && Distinct(gields) && Keys(fields) == Keys(gields)
    ensures KeySeq(Sort(less, fields)) == KeySeq(Sort(less, gields))
    ensures |Sort(less, fields)| == |Sort(less, gields)|
  {
    SortSorts(less, fields);
    SortSorts(less, gields);
    KeysOfSort(less, fields);
    KeysOfSort(less, gields);
    SortedKeysUnique(less, Sort(less, fields), Sort(less, gields));
    assert |KeySeq(Sort(less, fields))| == |KeySeq(Sort(less, gields))|;
  }

  /** When two objects have the same form, a field of one answers a field of the other. */
  lemma FieldFromForms(less: (string, string) -> bool, fields: seq<Field>, gields: seq<Field>, i: nat) returns (x: Value)
    requires Distinct(fields) && Distinct(gields) && i < |fields|
    requires FormFields(less, true, Sort(less, fields)) == FormFields(less, true, Sort(less, gields))
    ensures Has(gields, fields[i].key) && x == Get(gields, fields[i].key)
    ensures exists m :: 0 <= m < |gields| && gields[m].value == x
    ensures Form(less, true, fields[i].value) == Form(less, true, x)
  {
    var f, g := Sort(less, fields), Sort(less, gields);
    SameElements(f, fields);
    assert |f| == |FormFields(less, true, f)| == |FormFields(less, true, g)| == |g|;
    assert fields[i] in f;
    var j :| 0 <= j < |f| && f[j] == fields[i];
    FormFieldsAt(less, true, f, j);
    FormFieldsAt(less, true, g, j);
    SortedField(less, gields, j);
    x := g[j].value;
  }

  /** ... and values with the same canonical form are the same up to key order. */
  lemma {:induction false} FormsSame(less: (string, string) -> bool, v: Value, w: Value)
    requires StrictTotal(less) && Plain(v) && Plain(w)
    requires Form(less, true, v) == Form(less, true, w)
    ensures Same(v, w)
    decreases Size(v)
  {
    match v
    case Arr(items) =>
      forall i | 0 <= i < |items|
        ensures Same(items[i], w.items[i])
      {
        FormItemsAt(less, true, items, i);
        FormItemsAt(less, true, w.items, i);
        SizeOfItem(items, i);
        FormsSame(less, items[i], w.items[i]);
      }
    case Obj(fields) =>
      PlainHasNoUndefined(fields);
      PlainHasNoUndefined(w.fields);
      SameKeysFromForms(less, fields, w.fields);
      hide Sort, Keys;
      forall i | 0 <= i < |fields|
        ensures Has(w.fields, fields[i].key) && Same(fields[i].value, Get(w.fields, fields[i].key))
      {
        var x := FieldFromForms(less, fields, w.fields, i);
        SizeOfField(fields, i);
        FormsSame(less, fields[i].value, x);
      }
    case _ =>
  }

  lemma SameKeysFromForms(less: (string, string) -> bool, fields: seq<Field>, gields: seq<Field>)
    requires FormFields(less, true, Sort(less, fields)) == FormFields(less, true, Sort(less, gields))
    ensures Keys(fields) == Keys(gields)
  {
    var f, g := Sort(less, fields), Sort(less, gields);
    KeysOfSort(less, fields);
    KeysOfSort(less, gields);
    KeysOfForm(less, f);
    KeysOfForm(less, g);
  }

  lemma KeysOfForm(less: (string, string) -> bool, fields: seq<Field>)
    ensures Keys(FormFields(less, true, fields)) == Keys(fields)
  {
    var r := FormFields(less, true, fields);
    forall i | 0 <= i < |fields|
      ensures r[i].key == fields[i].key
    {
      FormFieldsAt(less, true, fields, i);
    }
  }
}
