/**
 Stable sorting by descending timestamp, and what cutting the sources before the sort does
 to the first entries of the result.
 */
module NewestFirst {

  datatype Entry<T> = Entry(timestamp: int, item: T)

  function Cut<T>(s: seq<T>, limit: nat): seq<T> {
    if |s| <= limit then s else s[..limit]
  }

  predicate Descending<T>(s: seq<Entry<T>>) {
    forall i, j :: 0 <= i < j < |s| ==> s[i].timestamp >= s[j].timestamp
  }

  /** The entries of one timestamp, in their order. */
  function At<T>(s: seq<Entry<T>>, t: int): seq<Entry<T>> {
    if s == [] then []
    else if s[0].timestamp == t then [s[0]] + At(s[1..], t)
    else At(s[1..], t)
  }

  /** What a stable sort promises: newest first, entries of equal timestamp in their old order. */
  ghost predicate IsStableSort<T(!new)>(s: seq<Entry<T>>, r: seq<Entry<T>>) {
    Descending(r) && forall t :: At(r, t) == At(s, t)
  }

  /** `a` and `b` merged, entries of `a` first among equals. */
  function Merge<T>(a: seq<Entry<T>>, b: seq<Entry<T>>): seq<Entry<T>>
    decreases |a| + |b|
  {
    if a == [] then b
    else if b == [] then a
    else if b[0].timestamp > a[0].timestamp then [b[0]] + Merge(a, b[1..])
    else [a[0]] + Merge(a[1..], b)
  }

  /** entries.sort((a, b) => b.timestamp - a.timestamp) */
  function Newest<T>(s: seq<Entry<T>>): seq<Entry<T>> {
    if s == [] then [] else Merge([s[0]], Newest(s[1..]))
  }

  // ----- the stable sort is determined by its promise

  lemma {:induction false} AtAppend<T>(a: seq<Entry<T>>, b: seq<Entry<T>>, t: int)
    ensures At(a + b, t) == At(a, t) + At(b, t)
  {
    if a == [] {
      assert a + b == b;
    } else {
      assert (a + b)[1..] == a[1..] + b;
      AtAppend(a[1..], b, t);
    }
  }

  lemma {:induction false} AtNone<T>(s: seq<Entry<T>>, t: int)
    requires forall i :: 0 <= i < |s| ==> s[i].timestamp != t
    ensures At(s, t) == []
  {
    if s != [] {
      AtNone(s[1..], t);
    }
  }

  lemma {:induction false} MergeHead<T>(a: seq<Entry<T>>, b: seq<Entry<T>>, t: int)
    requires forall i :: 0 <= i < |a| ==> a[i].timestamp <= t
    requires forall i :: 0 <= i < |b| ==> b[i].timestamp <= t
    ensures forall i :: 0 <= i < |Merge(a, b)| ==> Merge(a, b)[i].timestamp <= t
    decreases |a| + |b|
  {
    if a != [] && b != [] {
      MergeHead(a, b[1..], t);
      MergeHead(a[1..], b, t);
    }
  }

  lemma DescendingCons<T>(e: Entry<T>, s: seq<Entry<T>>)
    requires Descending(s) && forall i :: 0 <= i < |s| ==> s[i].timestamp <= e.timestamp
    ensures Descending([e] + s)
  {
  }

  lemma DescendingTail<T>(s: seq<Entry<T>>)
    requires Descending(s) && s != []
    ensures Descending(s[1..]) && forall i :: 0 <= i < |s| ==> s[i].timestamp <= s[0].timestamp
  {
  }

  lemma {:induction false} MergeDescends<T>(a: seq<Entry<T>>, b: seq<Entry<T>>)
    requires Descending(a) && Descending(b)
    ensures Descending(Merge(a, b))
    decreases |a| + |b|
  {
    if a != [] && b != [] {
      DescendingTail(a);
      DescendingTail(b);
      hide Descending;
      if b[0].timestamp > a[0].timestamp {
        MergeDescends(a, b[1..]);
        MergeHead(a, b[1..], b[0].timestamp);
        DescendingCons(b[0], Merge(a, b[1..]));
      } else {
        MergeDescends(a[1..], b);
        MergeHead(a[1..], b, a[0].timestamp);
        DescendingCons(a[0], Merge(a[1..], b));
      }
    }
  }

  lemma {:induction false} MergeAt<T>(a: seq<Entry<T>>, b: seq<Entry<T>>, t: int)
    requires Descending(a) && Descending(b)
    ensures At(Merge(a, b), t) == At(a, t) + At(b, t)
    decreases |a| + |b|
  {
    if a != [] && b != [] {
      if b[0].timestamp > a[0].timestamp {
        MergeAt(a, b[1..], t);
        AtAppend([b[0]], Merge(a, b[1..]), t);
        if b[0].timestamp == t {
          AtNone(a, t);
        }
      } else {
        MergeAt(a[1..], b, t);
        AtAppend([a[0]], Merge(a[1..], b), t);
      }
    }
  }

  lemma OneDescends<T>(e: Entry<T>)
    ensures Descending([e])
  {
  }

  lemma {:induction false} NewestIsStableSort<T(!new)>(s: seq<Entry<T>>)
    ensures IsStableSort(s, Newest(s))
  {
    if s != [] {
      var a, r := [s[0]], Newest(s[1..]);
      NewestIsStableSort(s[1..]);
      MergeDescends(a, r);
      assert s == a + s[1..];
      hide Merge, At, Descending;
      assert Descending(a) by { OneDescends(s[0]); }
      forall t
        ensures At(Merge(a, r), t) == At(s, t)
      {
        MergeAt(a, r, t);
        AtAppend(a, s[1..], t);
      }
    }
  }

  lemma {:induction false} AtSource<T>(s: seq<Entry<T>>, t: int, k: nat)
    requires k < |At(s, t)|
    ensures At(s, t)[k].timestamp == t && exists i :: 0 <= i < |s| && s[i] == At(s, t)[k]
  {
    if s[0].timestamp == t {
      if k > 0 {
        AtSource(s[1..], t, k - 1);
        var i :| 0 <= i < |s[1..]| && s[1..][i] == At(s[1..], t)[k - 1];
        assert s[i + 1] == At(s, t)[k];
      }
    } else {
      AtSource(s[1..], t, k);
      var i :| 0 <= i < |s[1..]| && s[1..][i] == At(s[1..], t)[k];
      assert s[i + 1] == At(s, t)[k];
    }
  }

  lemma HeadPresent<T>(s: seq<Entry<T>>)
    ensures s != [] ==> At(s, s[0].timestamp) != []
  {
  }

  lemma HeadFromAt<T>(p: seq<Entry<T>>, q: seq<Entry<T>>)
    requires Descending(p) && Descending(q) && p != []
    requires At(p, p[0].timestamp) == At(q, p[0].timestamp)
    ensures q != [] && p[0].timestamp <= q[0].timestamp
  {
    AtSource(q, p[0].timestamp, 0);
    var i :| 0 <= i < |q| && q[i] == At(q, p[0].timestamp)[0];
  }

  /** Two stable sorts of the same entries are equal. */
  lemma {:induction false} StableSortIsUnique<T(!new)>(p: seq<Entry<T>>, q: seq<Entry<T>>)
    requires Descending(p) && Descending(q) && forall t :: At(p, t) == At(q, t)
    ensures p == q
    decreases |p|
  {
    HeadPresent(q);
    if p != [] {
      HeadFromAt(p, q);
      HeadFromAt(q, p);
      var t0 := p[0].timestamp;
      assert At(p, t0) == [p[0]] + At(p[1..], t0) && At(q, t0) == [q[0]] + At(q[1..], t0);
      assert p[0] == At(p, t0)[0] == q[0];
      forall t
        ensures At(p[1..], t) == At(q[1..], t)
      {
        assert At(p, t) == At(q, t);
        if t == t0 {
          assert At(p[1..], t) == At(p, t)[1..] && At(q[1..], t) == At(q, t)[1..];
        }
      }
      StableSortIsUnique(p[1..], q[1..]);
      assert p == [p[0]] + p[1..] && q == [q[0]] + q[1..];
    }
  }

  /** Any stable sort of `s` is `Newest(s)`. */
  lemma SortsAgree<T(!new)>(s: seq<Entry<T>>, r: seq<Entry<T>>)
    ensures IsStableSort(s, r) <==> r == Newest(s)
  {
    NewestIsStableSort(s);
    if IsStableSort(s, r) {
      StableSortIsUnique(r, Newest(s));
    }
  }

  lemma NewestOfSorted<T(!new)>(s: seq<Entry<T>>)
    requires Descending(s)
    ensures Newest(s) == s
  {
    SortsAgree(s, s);
  }

  lemma NewestOfTwo<T(!new)>(a: seq<Entry<T>>, b: seq<Entry<T>>)
    ensures Newest(a + b) == Merge(Newest(a), Newest(b))
  {
    NewestIsStableSort(a);
    NewestIsStableSort(b);
    var r := Merge(Newest(a), Newest(b));
    MergeDescends(Newest(a), Newest(b));
    forall t
      ensures At(r, t) == At(a + b, t)
    {
      MergeAt(Newest(a), Newest(b), t);
      AtAppend(a, b, t);
    }
    SortsAgree(a + b, r);
  }

  // ----- cutting the sources first

  lemma MergeTakes<T>(a: seq<Entry<T>>, b: seq<Entry<T>>)
    requires a != [] && b != []
    ensures Merge(a, b) ==
            if b[0].timestamp > a[0].timestamp then [b[0]] + Merge(a, b[1..]) else [a[0]] + Merge(a[1..], b)
  {
  }

  lemma CutTail<T>(s: seq<T>, limit: nat)
    requires s != [] && limit > 0
    ensures Cut(s, limit) != [] && Cut(s, limit)[0] == s[0] && Cut(s, limit)[1..] == Cut(s[1..], limit - 1)
  {
  }

  lemma {:induction false} CutMerge<T>(a: seq<Entry<T>>, b: seq<Entry<T>>, limit: nat)
    ensures Cut(Merge(a, b), limit) == Cut(Merge(Cut(a, limit), Cut(b, limit)), limit)
    decreases |a| + |b|
  {
    if a != [] && b != [] && limit > 0 {
      hide Merge, Cut;
      var a', b' := Cut(a, limit), Cut(b, limit);
      CutTail(a, limit);
      CutTail(b, limit);
      CutTwice(a, limit);
      CutTwice(b, limit);
      MergeTakes(a, b);
      MergeTakes(a', b');
      if b[0].timestamp > a[0].timestamp {
        CutMerge(a, b[1..], limit - 1);
        CutMerge(a', b'[1..], limit - 1);
        CutTwice(b[1..], limit - 1);
        CutCons(b[0], Merge(a, b[1..]), limit);
        CutCons(b[0], Merge(a', b'[1..]), limit);
      } else {
        CutMerge(a[1..], b, limit - 1);
        CutMerge(a'[1..], b', limit - 1);
        CutTwice(a[1..], limit - 1);
        CutCons(a[0], Merge(a[1..], b), limit);
        CutCons(a[0], Merge(a'[1..], b'), limit);
      }
    }
  }

  lemma CutTwice<T>(s: seq<T>, limit: nat)
    ensures Cut(Cut(s, limit), limit) == Cut(s, limit)
    ensures limit > 0 ==> Cut(Cut(s, limit), limit - 1) == Cut(s, limit - 1)
  {
  }

  lemma CutCons<T>(e: T, s: seq<T>, limit: nat)
    requires limit > 0
    ensures Cut([e] + s, limit) == [e] + Cut(s, limit - 1)
  {
  }

  lemma CutDescends<T>(s: seq<Entry<T>>, limit: nat)
    requires Descending(s)
    ensures Descending(Cut(s, limit))
  {
  }

  function Concat<T>(sources: seq<seq<T>>): seq<T> {
    if sources == [] then [] else sources[0] + Concat(sources[1..])
  }

  function CutEach<T>(sources: seq<seq<T>>, limit: nat): (r: seq<seq<T>>)
    ensures |r| == |sources|
  {
    seq(|sources|, i requires 0 <= i < |sources| => Cut(sources[i], limit))
  }

  /** One more newest-first source in front. */
  lemma CutOneMore<T(!new)>(a: seq<Entry<T>>, all: seq<Entry<T>>, cut: seq<Entry<T>>, limit: nat)
    requires Descending(a) && Cut(Newest(cut), limit) == Cut(Newest(all), limit)
    ensures Cut(Newest(Cut(a, limit) + cut), limit) == Cut(Newest(a + all), limit)
  {
    CutDescends(a, limit);
    hide Merge, Newest, Descending, Cut;
    NewestOfSorted(a);
    NewestOfSorted(Cut(a, limit));
    NewestOfTwo(a, all);
    NewestOfTwo(Cut(a, limit), cut);
    CutMerge(a, Newest(all), limit);
    CutMerge(Cut(a, limit), Newest(cut), limit);
    CutTwice(a, limit);
  }

  /**
   When every source is newest-first, cutting each to the limit before concatenating, sorting
   and cutting gives what sorting everything and cutting once gives.
   */
  lemma {:induction false} CutSourcesSuffice<T(!new)>(sources: seq<seq<Entry<T>>>, limit: nat)
    requires forall i :: 0 <= i < |sources| ==> Descending(sources[i])
    ensures Cut(Newest(Concat(CutEach(sources, limit))), limit) == Cut(Newest(Concat(sources)), limit)
  {
    hide Newest, Descending, Cut;
    if sources == [] {
      assert CutEach(sources, limit) == [];
    } else {
      var rest := sources[1..];
      CutSourcesSuffice(rest, limit);
      assert CutEach(sources, limit)[1..] == CutEach(rest, limit);
      CutOneMore(sources[0], Concat(rest), Concat(CutEach(rest, limit)), limit);
    }
  }

  // ----- exactly when cutting the sources first is right

  ghost function Keep<T(!new)>(s: seq<Entry<T>>, p: Entry<T> -> bool): seq<Entry<T>> {
    if s == [] then []
    else if p(s[0]) then [s[0]] + Keep(s[1..], p)
    else Keep(s[1..], p)
  }

  lemma {:induction false} KeepAppend<T(!new)>(a: seq<Entry<T>>, b: seq<Entry<T>>, p: Entry<T> -> bool)
    ensures Keep(a + b, p) == Keep(a, p) + Keep(b, p)
  {
    if a == [] {
      assert a + b == b;
    } else {
      assert (a + b)[1..] == a[1..] + b;
      KeepAppend(a[1..], b, p);
    }
  }

  lemma {:induction false} KeepAt<T(!new)>(s: seq<Entry<T>>, p: Entry<T> -> bool, t: int)
    ensures At(Keep(s, p), t) == Keep(At(s, t), p)
  {
    if s != [] {
      KeepAt(s[1..], p, t);
      AtAppend([s[0]], Keep(s[1..], p), t);
      KeepAppend([s[0]], At(s[1..], t), p);
    }
  }

  lemma {:induction false} KeepFrom<T(!new)>(s: seq<Entry<T>>, p: Entry<T> -> bool)
    ensures forall e :: e in Keep(s, p) <==> e in s && p(e)
  {
    if s != [] {
      KeepFrom(s[1..], p);
      assert s == [s[0]] + s[1..];
    }
  }

  lemma {:induction false} KeepDescends<T(!new)>(s: seq<Entry<T>>, p: Entry<T> -> bool)
    requires Descending(s)
    ensures Descending(Keep(s, p))
  {
    if s != [] {
      DescendingTail(s);
      KeepDescends(s[1..], p);
      KeepFrom(s[1..], p);
      forall i | 0 <= i < |Keep(s[1..], p)|
        ensures Keep(s[1..], p)[i].timestamp <= s[0].timestamp
      {
        assert Keep(s[1..], p)[i] in s[1..];
      }
      DescendingCons(s[0], Keep(s[1..], p));
    }
  }

  lemma NewestOfKept<T(!new)>(s: seq<Entry<T>>, p: Entry<T> -> bool)
    ensures Newest(Keep(s, p)) == Keep(Newest(s), p)
  {
    NewestIsStableSort(s);
    KeepDescends(Newest(s), p);
    forall t
      ensures At(Keep(Newest(s), p), t) == At(Keep(s, p), t)
    {
      KeepAt(Newest(s), p, t);
      KeepAt(s, p, t);
    }
    SortsAgree(Keep(s, p), Keep(Newest(s), p));
  }

  lemma CutIsPart<T>(s: seq<T>, limit: nat, e: T)
    ensures e in Cut(s, limit) ==> e in s
  {
  }

  /** Dropping entries leaves the first ones alone exactly when none of those is dropped. */
  lemma {:induction false} CutOfKept<T(!new)>(s: seq<Entry<T>>, p: Entry<T> -> bool, limit: nat)
    ensures Cut(Keep(s, p), limit) == Cut(s, limit) <==> forall e :: e in Cut(s, limit) ==> p(e)
  {
    if s != [] && limit > 0 {
      CutOfKept(s[1..], p, limit - 1);
      CutCons(s[0], s[1..], limit);
      assert s == [s[0]] + s[1..];
      if p(s[0]) {
        CutCons(s[0], Keep(s[1..], p), limit);
        assert Cut(s, limit)[1..] == Cut(s[1..], limit - 1);
        assert Cut(Keep(s, p), limit)[1..] == Cut(Keep(s[1..], p), limit - 1);
      } else {
        KeepFrom(s, p);
        CutIsPart(Keep(s, p), limit, s[0]);
        assert s[0] in Cut(s, limit);
      }
    }
  }

  predicate Distinct<T(==)>(s: seq<T>) {
    forall i, j :: 0 <= i < j < |s| ==> s[i] != s[j]
  }

  /** Within the first `limit` entries of a source. */
  predicate Fetched<T(==)>(sources: seq<seq<T>>, limit: nat, e: T) {
    exists i :: 0 <= i < |sources| && e in Cut(sources[i], limit)
  }

  lemma {:induction false} InConcat<T>(sources: seq<seq<T>>, e: T)
    ensures e in Concat(sources) <==> exists i :: 0 <= i < |sources| && e in sources[i]
  {
    if sources != [] {
      InConcat(sources[1..], e);
      if i :| 0 <= i < |sources| && e in sources[i] {
        if i > 0 {
          assert e in sources[1..][i - 1];
        }
      }
      if i :| 0 <= i < |sources[1..]| && e in sources[1..][i] {
        assert e in sources[i + 1];
      }
    }
  }

  lemma {:induction false} DistinctSource<T>(sources: seq<seq<T>>, i: nat)
    requires Distinct(Concat(sources)) && i < |sources|
    ensures Distinct(sources[i])
    decreases |sources|
  {
    DistinctParts(sources[0], Concat(sources[1..]));
    if i > 0 {
      DistinctSource(sources[1..], i - 1);
    }
  }

  lemma {:induction false} DisjointSources<T>(sources: seq<seq<T>>, i: nat, j: nat, e: T)
    requires Distinct(Concat(sources)) && i < j < |sources|
    ensures e in sources[i] ==> e !in sources[j]
    decreases |sources|
  {
    var rest := sources[1..];
    DistinctParts(sources[0], Concat(rest));
    if i > 0 {
      DisjointSources(rest, i - 1, j - 1, e);
    } else {
      InConcat(rest, e);
      assert rest[j - 1] == sources[j];
    }
  }

  lemma DistinctParts<T>(a: seq<T>, b: seq<T>)
    requires Distinct(a + b)
    ensures Distinct(a) && Distinct(b) && forall e :: e in a ==> e !in b
  {
    forall i, j | 0 <= i < j < |a|
      ensures a[i] != a[j]
    {
      assert (a + b)[i] != (a + b)[j];
    }
    forall i, j | 0 <= i < j < |b|
      ensures b[i] != b[j]
    {
      assert (a + b)[|a| + i] != (a + b)[|a| + j];
    }
    forall e | e in a
      ensures e !in b
    {
      var i :| 0 <= i < |a| && a[i] == e;
      forall j | 0 <= j < |b|
        ensures b[j] != e
      {
        assert (a + b)[i] != (a + b)[|a| + j];
      }
    }
  }

  lemma {:induction false} KeepCut<T(!new)>(s: seq<Entry<T>>, p: Entry<T> -> bool, n: nat)
    requires Distinct(s) && forall e :: e in s ==> (p(e) <==> e in Cut(s, n))
    ensures Keep(s, p) == Cut(s, n)
    decreases |s|
  {
    if s != [] {
      assert s == [s[0]] + s[1..];
      DistinctParts([s[0]], s[1..]);
      var m := if n == 0 then 0 else n - 1;
      if n > 0 {
        CutCons(s[0], s[1..], n);
      }
      forall e | e in s[1..]
        ensures p(e) <==> e in Cut(s[1..], m)
      {
        assert e in s && e != s[0];
      }
      assert s[0] in s;
      KeepCut(s[1..], p, m);
    }
  }

  lemma {:induction false} CutEachIsKept<T(!new)>(sources: seq<seq<Entry<T>>>, p: Entry<T> -> bool, limit: nat)
    requires forall i :: 0 <= i < |sources| ==> Distinct(sources[i])
    requires forall i, e :: 0 <= i < |sources| && e in sources[i] ==> (p(e) <==> e in Cut(sources[i], limit))
    ensures Concat(CutEach(sources, limit)) == Keep(Concat(sources), p)
    decreases |sources|
  {
    if sources != [] {
      var rest := sources[1..];
      forall i | 0 <= i < |rest|
        ensures Distinct(rest[i]) && forall e :: e in rest[i] ==> (p(e) <==> e in Cut(rest[i], limit))
      {
        assert rest[i] == sources[i + 1];
      }
      CutEachIsKept(rest, p, limit);
      assert CutEach(sources, limit)[1..] == CutEach(rest, limit);
      KeepCut(sources[0], p, limit);
      KeepAppend(sources[0], Concat(rest), p);
    }
  }

  /** How many entries are newer than `t`. */
  function Newer<T>(s: seq<Entry<T>>, t: int): nat {
    if s == [] then 0 else (if s[0].timestamp > t then 1 else 0) + Newer(s[1..], t)
  }

  function Position<T(==)>(s: seq<T>, e: T): nat {
    if s == [] || s[0] == e then 0 else 1 + Position(s[1..], e)
  }

  /** How many entries rank ahead of `e`: the newer ones, and those before it of its timestamp. */
  function Ahead<T(==)>(s: seq<Entry<T>>, e: Entry<T>): nat {
    Newer(s, e.timestamp) + Position(At(s, e.timestamp), e)
  }

  lemma {:induction false} NewerOfMerge<T>(a: seq<Entry<T>>, b: seq<Entry<T>>, t: int)
    ensures Newer(Merge(a, b), t) == Newer(a, t) + Newer(b, t)
    decreases |a| + |b|
  {
    if a != [] && b != [] {
      if b[0].timestamp > a[0].timestamp {
        NewerOfMerge(a, b[1..], t);
      } else {
        NewerOfMerge(a[1..], b, t);
      }
    }
  }

  lemma {:induction false} NewerOfNewest<T>(s: seq<Entry<T>>, t: int)
    ensures Newer(Newest(s), t) == Newer(s, t)
  {
    if s != [] {
      NewerOfNewest(s[1..], t);
      NewerOfMerge([s[0]], Newest(s[1..]), t);
    }
  }

  lemma {:induction false} NoneNewer<T>(s: seq<Entry<T>>, t: int)
    requires forall i :: 0 <= i < |s| ==> s[i].timestamp <= t
    ensures Newer(s, t) == 0
  {
    if s != [] {
      NoneNewer(s[1..], t);
    }
  }

  lemma {:induction false} RankInSorted<T>(s: seq<Entry<T>>, k: nat)
    requires Descending(s) && Distinct(s) && k < |s|
    ensures Ahead(s, s[k]) == k
  {
    DescendingTail(s);
    if k == 0 {
      NoneNewer(s, s[0].timestamp);
    } else {
      assert s == [s[0]] + s[1..];
      DistinctParts([s[0]], s[1..]);
      RankInSorted(s[1..], k - 1);
    }
  }

  lemma {:induction false} MergeMembers<T>(a: seq<Entry<T>>, b: seq<Entry<T>>)
    ensures multiset(Merge(a, b)) == multiset(a) + multiset(b)
    decreases |a| + |b|
  {
    if a != [] && b != [] {
      assert a == [a[0]] + a[1..] && b == [b[0]] + b[1..];
      if b[0].timestamp > a[0].timestamp {
        MergeMembers(a, b[1..]);
      } else {
        MergeMembers(a[1..], b);
      }
    }
  }

  lemma {:induction false} NewestMembers<T>(s: seq<Entry<T>>)
    ensures multiset(Newest(s)) == multiset(s)
  {
    if s != [] {
      NewestMembers(s[1..]);
      MergeMembers([s[0]], Newest(s[1..]));
      assert s == [s[0]] + s[1..];
    }
  }

  lemma TwiceIsTwo<T>(s: seq<T>, i: nat, j: nat)
    requires i < j < |s| && s[i] == s[j]
    ensures multiset(s)[s[i]] >= 2
  {
    assert s == s[..j] + [s[j]] + s[j + 1..];
    assert s[i] in s[..j];
  }

  lemma OnceIsOne<T>(s: seq<T>, i: nat)
    requires Distinct(s) && i < |s|
    ensures multiset(s)[s[i]] == 1
  {
    assert s == s[..i] + [s[i]] + s[i + 1..];
    assert s[i] !in s[..i] && s[i] !in s[i + 1..];
  }

  lemma DistinctIffOnce<T>(s: seq<T>)
    ensures Distinct(s) <==> forall e :: e in s ==> multiset(s)[e] == 1
  {
    if !Distinct(s) {
      var i, j :| 0 <= i < j < |s| && s[i] == s[j];
      TwiceIsTwo(s, i, j);
    } else {
      forall i | 0 <= i < |s|
        ensures multiset(s)[s[i]] == 1
      {
        OnceIsOne(s, i);
      }
    }
  }

  lemma SortedKeeps<T(!new)>(s: seq<Entry<T>>, e: Entry<T>)
    ensures e in Newest(s) <==> e in s
    ensures Ahead(Newest(s), e) == Ahead(s, e)
    ensures Distinct(s) ==> Distinct(Newest(s))
  {
    NewestMembers(s);
    DistinctIffOnce(s);
    DistinctIffOnce(Newest(s));
    NewestIsStableSort(s);
    NewerOfNewest(s, e.timestamp);
    hide Newest, Distinct;
    var r := Newest(s);
    assert forall x :: x in s <==> x in multiset(s);
    assert forall x :: x in r <==> x in multiset(r);
  }

  lemma ShownInSorted<T>(r: seq<Entry<T>>, limit: nat, e: Entry<T>)
    requires Descending(r) && Distinct(r)
    ensures e in Cut(r, limit) <==> e in r && Ahead(r, e) < limit
  {
    hide Descending, Distinct, Ahead;
    if e in r {
      var k :| 0 <= k < |r| && r[k] == e;
      RankInSorted(r, k);
      if e in Cut(r, limit) {
        var j :| 0 <= j < |Cut(r, limit)| && Cut(r, limit)[j] == e;
        RankInSorted(r, j);
      }
      if k < limit {
        assert Cut(r, limit)[k] == e;
      }
    } else {
      CutIsPart(r, limit, e);
    }
  }

  /** The entries the cut list shows are those with fewer than `limit` ahead of them. */
  lemma ShownIff<T(!new)>(s: seq<Entry<T>>, limit: nat, e: Entry<T>)
    requires Distinct(s)
    ensures e in Cut(Newest(s), limit) <==> e in s && Ahead(s, e) < limit
  {
    NewestIsStableSort(s);
    hide Newest, Distinct, Descending, Ahead, Cut;
    SortedKeeps(s, e);
    ShownInSorted(Newest(s), limit, e);
  }

  /**
   For any sources, sorted or not: cutting them first is right exactly when every entry with
   fewer than `limit` entries ahead of it is within the first `limit` of its source.
   */
  lemma CutSourcesRightIff<T(!new)>(sources: seq<seq<Entry<T>>>, limit: nat)
    requires Distinct(Concat(sources))
    ensures Cut(Newest(Concat(CutEach(sources, limit))), limit) == Cut(Newest(Concat(sources)), limit) <==>
            forall e :: e in Concat(sources) && Ahead(Concat(sources), e) < limit ==> Fetched(sources, limit, e)
  {
    var all := Concat(sources);
    var p := e => Fetched(sources, limit, e);
    forall i, e | 0 <= i < |sources| && e in sources[i]
      ensures p(e) <==> e in Cut(sources[i], limit)
    {
      if j :| 0 <= j < |sources| && e in Cut(sources[j], limit) {
        CutIsPart(sources[j], limit, e);
        if i < j {
          DisjointSources(sources, i, j, e);
        } else if j < i {
          DisjointSources(sources, j, i, e);
        }
      }
    }
    forall i | 0 <= i < |sources|
      ensures Distinct(sources[i])
    {
      DistinctSource(sources, i);
    }
    CutEachIsKept(sources, p, limit);
    NewestOfKept(all, p);
    CutOfKept(Newest(all), p, limit);
    forall e
      ensures e in Cut(Newest(all), limit) <==> e in all && Ahead(all, e) < limit
    {
      ShownIff(all, limit, e);
    }
  }
}
