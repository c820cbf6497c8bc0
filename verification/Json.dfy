/**
 JSON-like values as the serializers meet them, their plain text, key sorting, and the
 canonical form of a value.
 */
module Json {
  import opened KeyOrder

  /** Integers a JavaScript number holds exactly. */
  type SafeInt = n: int | -0x1F_FFFF_FFFF_FFFF <= n <= 0x1F_FFFF_FFFF_FFFF

  /**
   A value in memory. `Frac` is a finite number that is not an integer, known only by the
   text ECMA-262 prints for it. The fields of an object are in insertion order.
   */
  datatype Value =
    | Null
    | Undefined
    | Bool(b: bool)
    | Num(n: SafeInt)
    | Frac(text: string)
    | BigInt(i: int)
    | Str(s: string)
    | Arr(items: seq<Value>)
    | Obj(fields: seq<Field>)

  datatype Field = Field(key: string, value: Value)

  function Size(v: Value): nat
    decreases v, 1
  {
    match v
    case Arr(items) => 1 + SizeItems(items)
    case Obj(fields) => 1 + SizeFields(fields)
    case _ => 1
  }

  function SizeItems(items: seq<Value>): nat
    decreases items, 0
  {
    if items == [] then 0 else 1 + Size(items[0]) + SizeItems(items[1..])
  }

  function SizeFields(fields: seq<Field>): nat
    decreases fields, 0
  {
    if fields == [] then 0
    else 1 + Size(fields[0].value) + SizeFields(fields[1..])
  }

  // ----- objects as maps

  predicate Distinct(fields: seq<Field>) {
    forall i, j :: 0 <= i < j < |fields| ==> fields[i].key != fields[j].key
  }

  function Keys(fields: seq<Field>): set<string> {
    set i | 0 <= i < |fields| :: fields[i].key
  }

  predicate Has(fields: seq<Field>, key: string) {
    exists i :: 0 <= i < |fields| && fields[i].key == key
  }

  /** The index of the field called `key`. */
  function IndexOf(fields: seq<Field>, key: string): (i: nat)
    requires Has(fields, key)
    ensures i < |fields| && fields[i].key == key
  {
    if fields[0].key == key then 0
    else
      assert Has(fields[1..], key) by {
        var j :| 0 <= j < |fields| && fields[j].key == key;
        assert fields[1..][j - 1].key == key;
      }
      1 + IndexOf(fields[1..], key)
  }

  function Get(fields: seq<Field>, key: string): Value
    requires Has(fields, key)
  {
    fields[IndexOf(fields, key)].value
  }

  // ----- sorting by key

  ghost predicate SortedBy(less: (string, string) -> bool, fields: seq<Field>) {
    forall i, j :: 0 <= i < j < |fields| ==> less(fields[i].key, fields[j].key)
  }

  function Insert(less: (string, string) -> bool, f: Field, fields: seq<Field>): (r: seq<Field>)
    ensures SizeFields(r) == 1 + Size(f.value) + SizeFields(fields)
    ensures multiset(r) == multiset(fields) + multiset{f}
  {
    if fields == [] then [f]
    else if less(f.key, fields[0].key) then
      assert ([f] + fields)[1..] == fields;
      [f] + fields
    else
      assert fields == [fields[0]] + fields[1..];
      [fields[0]] + Insert(less, f, fields[1..])
  }

  function Sort(less: (string, string) -> bool, fields: seq<Field>): (r: seq<Field>)
    ensures SizeFields(r) == SizeFields(fields)
    ensures multiset(r) == multiset(fields)
  {
    if fields == [] then []
    else
      assert fields == [fields[0]] + fields[1..];
      Insert(less, fields[0], Sort(less, fields[1..]))
  }

  lemma {:induction false} InsertSorts(less: (string, string) -> bool, f: Field, fields: seq<Field>)
    requires StrictTotal(less) && SortedBy(less, fields)
    requires forall i :: 0 <= i < |fields| ==> fields[i].key != f.key
    ensures SortedBy(less, Insert(less, f, fields))
  {
    if fields != [] && !less(f.key, fields[0].key) {
      assert fields[0].key != f.key;
      InsertSorts(less, f, fields[1..]);
      var r := Insert(less, f, fields[1..]);
      forall i | 0 <= i < |r|
        ensures less(fields[0].key, r[i].key)
      {
        assert r[i] in multiset(r);
        assert r[i] == f || r[i] in fields[1..];
      }
    }
  }

  lemma {:induction false} SortSorts(less: (string, string) -> bool, fields: seq<Field>)
    requires StrictTotal(less) && Distinct(fields)
    ensures SortedBy(less, Sort(less, fields))
  {
    if fields != [] {
      var rest := Sort(less, fields[1..]);
      SortSorts(less, fields[1..]);
      forall i | 0 <= i < |rest|
        ensures rest[i].key != fields[0].key
      {
        assert rest[i] in multiset(rest);
        assert rest[i] in fields[1..];
      }
      InsertSorts(less, fields[0], rest);
    }
  }

  lemma SameElements(a: seq<Field>, b: seq<Field>)
    requires multiset(a) == multiset(b)
    ensures forall f :: f in a <==> f in b
    ensures Keys(a) == Keys(b) && |a| == |b|
  {
    forall f: Field
      ensures f in a <==> f in b
    {
      assert f in a <==> f in multiset(a);
      assert f in b <==> f in multiset(b);
    }
    assert |a| == |multiset(a)| == |multiset(b)| == |b|;
    forall k | k in Keys(a)
      ensures k in Keys(b)
    {
      var i :| 0 <= i < |a| && a[i].key == k;
      assert a[i] in b;
    }
    forall k | k in Keys(b)
      ensures k in Keys(a)
    {
      var i :| 0 <= i < |b| && b[i].key == k;
      assert b[i] in a;
    }
  }

  lemma SortedIsDistinct(less: (string, string) -> bool, fields: seq<Field>)
    requires StrictTotal(less) && SortedBy(less, fields)
    ensures Distinct(fields)
  {
  }

  function KeySeq(fields: seq<Field>): (r: seq<string>)
    ensures |r| == |fields|
  {
    seq(|fields|, i requires 0 <= i < |fields| => fields[i].key)
  }

  lemma SomeKeys(fields: seq<Field>)
    ensures fields != [] ==> Keys(fields) != {}
    ensures fields == [] ==> Keys(fields) == {}
  {
    if fields != [] {
      assert fields[0].key in Keys(fields);
    }
  }

  /** The key set of a sorted object determines the sequence of its keys. */
  lemma {:induction false} SortedKeysUnique(less: (string, string) -> bool, a: seq<Field>, b: seq<Field>)
    requires StrictTotal(less) && SortedBy(less, a) && SortedBy(less, b)
    requires Keys(a) == Keys(b)
    ensures KeySeq(a) == KeySeq(b)
  {
    SomeKeys(a);
    SomeKeys(b);
    if a != [] {
      SmallestKey(less, a, b);
      SmallestKey(less, b, a);
      assert a[0].key == b[0].key;
      TailKeys(less, a);
      TailKeys(less, b);
      SortedKeysUnique(less, a[1..], b[1..]);
      assert KeySeq(a) == [a[0].key] + KeySeq(a[1..]);
      assert KeySeq(b) == [b[0].key] + KeySeq(b[1..]);
    }
  }

  lemma SmallestKey(less: (string, string) -> bool, a: seq<Field>, b: seq<Field>)
    requires StrictTotal(less) && SortedBy(less, a) && a != [] && b != []
    requires Keys(a) == Keys(b)
    ensures !less(b[0].key, a[0].key)
  {
    assert b[0].key in Keys(b);
    var i :| 0 <= i < |a| && a[i].key == b[0].key;
    if i > 0 {
      assert less(a[0].key, a[i].key);
    }
  }

  lemma TailKeys(less: (string, string) -> bool, a: seq<Field>)
    requires StrictTotal(less) && SortedBy(less, a) && a != []
    ensures Keys(a[1..]) == Keys(a) - {a[0].key}
  {
    forall k | k in Keys(a) - {a[0].key}
      ensures k in Keys(a[1..])
    {
      var i :| 0 <= i < |a| && a[i].key == k;
      assert a[1..][i - 1].key == k;
    }
    forall k | k in Keys(a[1..])
      ensures k in Keys(a) - {a[0].key}
    {
      var i :| 0 <= i < |a[1..]| && a[1..][i].key == k;
      assert a[i + 1].key == k && less(a[0].key, a[i + 1].key);
    }
  }

  /** Sorting a sorted object changes nothing. */
  lemma SortSorted(less: (string, string) -> bool, fields: seq<Field>)
    requires StrictTotal(less) && SortedBy(less, fields)
    ensures Sort(less, fields) == fields
  {
    var r := Sort(less, fields);
    SortedIsDistinct(less, fields);
    SortSorts(less, fields);
    SameElements(r, fields);
    SortedKeysUnique(less, r, fields);
    hide StrictTotal, SortedBy, Sort;
    forall i | 0 <= i < |r|
      ensures r[i] == fields[i]
    {
      assert r[i] in fields;
      SameKeyAt(r, fields, i);
    }
  }

  lemma SameKeyAt(a: seq<Field>, b: seq<Field>, i: nat)
    requires KeySeq(a) == KeySeq(b) && Distinct(b) && i < |a| && a[i] in b
    ensures i < |b| && a[i] == b[i]
  {
    var j :| 0 <= j < |b| && b[j] == a[i];
    assert KeySeq(a)[i] == KeySeq(b)[i];
    assert b[i].key == b[j].key;
  }
}
