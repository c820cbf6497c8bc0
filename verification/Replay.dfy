/**
 Tables that are filled by upserts and patched by updates, and what replaying their log
 after a crash does to them. A row has columns written once, at insertion (`ins`), columns
 every upsert overwrites (`main`), and columns only updates write (`extra`).
 */
module Replay {

  datatype Row<I, A, B> = Row(ins: I, main: A, extra: B)

  /** INSERT ... ON CONFLICT DO UPDATE SET main, UPDATE ... SET extra WHERE key, or nothing. */
  datatype Op<K, I, A, B> = Put(key: K, ins: I, main: A) | Patch(key: K, extra: B) | Skip

  type Table<K(==), I, A, B> = map<K, Row<I, A, B>>

  function Apply<K(==), I, A, B>(op: Op<K, I, A, B>, fresh0: B, t: Table<K, I, A, B>): Table<K, I, A, B> {
    match op
    case Put(key, ins, main) =>
      if key in t then t[key := t[key].(main := main)] else t[key := Row(ins, main, fresh0)]
    case Patch(key, extra) =>
      if key in t then t[key := t[key].(extra := extra)] else t
    case Skip => t
  }

  function Fold<K(==), I, A, B>(ops: seq<Op<K, I, A, B>>, fresh0: B, t: Table<K, I, A, B>): Table<K, I, A, B> {
    if ops == [] then t else Apply(ops[|ops| - 1], fresh0, Fold(ops[..|ops| - 1], fresh0, t))
  }

  lemma {:induction false} FoldAppend<K, I, A, B>(p: seq<Op<K, I, A, B>>, q: seq<Op<K, I, A, B>>, fresh0: B, t: Table<K, I, A, B>)
    ensures Fold(p + q, fresh0, t) == Fold(q, fresh0, Fold(p, fresh0, t))
    decreases |q|
  {
    if q == [] {
      assert p + q == p;
    } else {
      assert (p + q)[..|p + q| - 1] == p + q[..|q| - 1];
      FoldAppend(p, q[..|q| - 1], fresh0, t);
    }
  }

  // ----- the state of one row after a sequence of operations

  predicate HasPut<K(==), I, A, B>(ops: seq<Op<K, I, A, B>>, key: K) {
    exists i :: 0 <= i < |ops| && ops[i].Put? && ops[i].key == key
  }

  /** Every patch finds its row: in the table, or put there by an earlier operation. */
  predicate Grounded<K(==), I, A, B>(ops: seq<Op<K, I, A, B>>, t: Table<K, I, A, B>) {
    forall i :: 0 <= i < |ops| && ops[i].Patch? ==> ops[i].key in t || HasPut(ops[..i], ops[i].key)
  }

  /** The last value put under the key, or `main` when there is none. */
  function LastMain<K(==), I, A, B>(ops: seq<Op<K, I, A, B>>, key: K, main: A): A {
    if ops == [] then main
    else
      var op := ops[|ops| - 1];
      if op.Put? && op.key == key then op.main else LastMain(ops[..|ops| - 1], key, main)
  }

  function LastExtra<K(==), I, A, B>(ops: seq<Op<K, I, A, B>>, key: K, extra: B): B {
    if ops == [] then extra
    else
      var op := ops[|ops| - 1];
      if op.Patch? && op.key == key then op.extra else LastExtra(ops[..|ops| - 1], key, extra)
  }

  lemma GroundedPrefix<K, I, A, B>(ops: seq<Op<K, I, A, B>>, t: Table<K, I, A, B>, n: nat)
    requires Grounded(ops, t) && n <= |ops|
    ensures Grounded(ops[..n], t)
  {
    forall i | 0 <= i < n && ops[..n][i].Patch?
      ensures ops[..n][i].key in t || HasPut(ops[..n][..i], ops[..n][i].key)
    {
      assert ops[..n][..i] == ops[..i];
      assert ops[i].Patch?;
    }
  }

  lemma HasPutLast<K, I, A, B>(ops: seq<Op<K, I, A, B>>, key: K)
    requires ops != []
    ensures HasPut(ops, key) <==>
            HasPut(ops[..|ops| - 1], key) || (ops[|ops| - 1].Put? && ops[|ops| - 1].key == key)
  {
    var front := ops[..|ops| - 1];
    if i :| 0 <= i < |ops| && ops[i].Put? && ops[i].key == key {
      if i < |front| {
        assert front[i] == ops[i];
      }
    }
    if HasPut(front, key) {
      var i :| 0 <= i < |front| && front[i].Put? && front[i].key == key;
      assert ops[i] == front[i];
    }
  }

  /** A key is present when it was before or was put. */
  lemma {:induction false} FoldKeys<K, I, A, B>(ops: seq<Op<K, I, A, B>>, fresh0: B, t: Table<K, I, A, B>, key: K)
    ensures key in Fold(ops, fresh0, t) <==> key in t || HasPut(ops, key)
    decreases |ops|
  {
    if ops != [] {
      FoldKeys(ops[..|ops| - 1], fresh0, t, key);
      HasPutLast(ops, key);
    }
  }

  /** What operations do to a row that exists already. */
  lemma {:induction false} FoldExisting<K, I, A, B>(ops: seq<Op<K, I, A, B>>, fresh0: B, t: Table<K, I, A, B>, key: K)
    requires key in t
    ensures key in Fold(ops, fresh0, t)
    ensures Fold(ops, fresh0, t)[key] ==
            Row(t[key].ins, LastMain(ops, key, t[key].main), LastExtra(ops, key, t[key].extra))
    decreases |ops|
  {
    if ops != [] {
      FoldExisting(ops[..|ops| - 1], fresh0, t, key);
    }
  }

  /** What grounded operations leave of a row they created. */
  lemma {:induction false} FoldCreated<K, I, A, B>(ops: seq<Op<K, I, A, B>>, fresh0: B, t: Table<K, I, A, B>, key: K)
    requires key !in t && HasPut(ops, key) && Grounded(ops, t)
    ensures key in Fold(ops, fresh0, t)
    ensures forall a: A :: Fold(ops, fresh0, t)[key].main == LastMain(ops, key, a)
    ensures Fold(ops, fresh0, t)[key].extra == LastExtra(ops, key, fresh0)
    decreases |ops|
  {
    var front, op := ops[..|ops| - 1], ops[|ops| - 1];
    HasPutLast(ops, key);
    GroundedPrefix(ops, t, |front|);
    FoldKeys(front, fresh0, t, key);
    if HasPut(front, key) {
      FoldCreated(front, fresh0, t, key);
    } else {
      NoPatchBefore(front, t, key);
      LastExtraUnpatched(front, key, fresh0);
    }
  }

  lemma PutsOfPrefix<K, I, A, B>(ops: seq<Op<K, I, A, B>>, n: nat, key: K)
    requires n <= |ops|
    ensures HasPut(ops[..n], key) ==> HasPut(ops, key)
  {
    if i :| 0 <= i < n && ops[..n][i].Put? && ops[..n][i].key == key {
      assert ops[i] == ops[..n][i];
    }
  }

  lemma NoPatchBefore<K, I, A, B>(ops: seq<Op<K, I, A, B>>, t: Table<K, I, A, B>, key: K)
    requires key !in t && !HasPut(ops, key) && Grounded(ops, t)
    ensures forall i :: 0 <= i < |ops| && ops[i].Patch? ==> ops[i].key != key
  {
    forall i | 0 <= i < |ops| && ops[i].Patch?
      ensures ops[i].key != key
    {
      PutsOfPrefix(ops, i, key);
    }
  }

  lemma {:induction false} LastExtraUnpatched<K, I, A, B>(ops: seq<Op<K, I, A, B>>, key: K, extra: B)
    requires forall i :: 0 <= i < |ops| && ops[i].Patch? ==> ops[i].key != key
    ensures LastExtra(ops, key, extra) == extra
    decreases |ops|
  {
    if ops != [] {
      LastExtraUnpatched(ops[..|ops| - 1], key, extra);
    }
  }

  lemma {:induction false} LastMainTwice<K, I, A, B>(ops: seq<Op<K, I, A, B>>, key: K, main: A, extra: B)
    ensures LastMain(ops, key, LastMain(ops, key, main)) == LastMain(ops, key, main)
    ensures LastExtra(ops, key, LastExtra(ops, key, extra)) == LastExtra(ops, key, extra)
    decreases |ops|
  {
    if ops != [] {
      var front := ops[..|ops| - 1];
      LastMainOfAny(front, key, main, LastMain(ops, key, main));
      LastMainTwice(front, key, main, extra);
    }
  }

  /** Either the default does not matter, or it comes through unchanged. */
  lemma {:induction false} LastMainOfAny<K, I, A, B>(ops: seq<Op<K, I, A, B>>, key: K, a: A, b: A)
    ensures HasPut(ops, key) ==> LastMain(ops, key, a) == LastMain(ops, key, b)
    ensures !HasPut(ops, key) ==> LastMain(ops, key, a) == a
    decreases |ops|
  {
    if ops != [] {
      HasPutLast(ops, key);
      LastMainOfAny(ops[..|ops| - 1], key, a, b);
    }
  }

  /** Running the same grounded operations a second time changes nothing. */
  lemma FoldTwice<K, I, A, B>(ops: seq<Op<K, I, A, B>>, fresh0: B, t: Table<K, I, A, B>)
    requires Grounded(ops, t)
    ensures Fold(ops, fresh0, Fold(ops, fresh0, t)) == Fold(ops, fresh0, t)
  {
    var u := Fold(ops, fresh0, t);
    var w := Fold(ops, fresh0, u);
    forall key | key in w
      ensures key in u
    {
      FoldKeys(ops, fresh0, t, key);
      FoldKeys(ops, fresh0, u, key);
    }
    forall key | key in u
      ensures key in w && w[key] == u[key]
    {
      FoldKeys(ops, fresh0, t, key);
      FoldExisting(ops, fresh0, u, key);
      if key in t {
        FoldExisting(ops, fresh0, t, key);
        LastMainTwice(ops, key, t[key].main, t[key].extra);
      } else {
        FoldCreated(ops, fresh0, t, key);
        LastMainTwice(ops, key, u[key].main, fresh0);
      }
    }
    assert w.Keys == u.Keys;
  }

  /** Starting over after a crash partway through: the part done twice makes no difference. */
  lemma StartOver<K, I, A, B>(p: seq<Op<K, I, A, B>>, q: seq<Op<K, I, A, B>>, fresh0: B, t: Table<K, I, A, B>)
    requires Grounded(p, t)
    ensures Fold(p + q, fresh0, Fold(p, fresh0, t)) == Fold(p + q, fresh0, t)
  {
    hide Fold, Grounded;
    FoldTwice(p, fresh0, t);
    FoldAppend(p, q, fresh0, t);
    FoldAppend(p, q, fresh0, Fold(p, fresh0, t));
  }

  // ----- runs that crash and start over

  /**
   One pass over the stream from the cursor on: it gets as far as position `reach`; when it
   commits, the cursor moves there, otherwise the next pass starts from the same cursor.
   */
  datatype Attempt = Attempt(reach: nat, committed: bool)

  function Cursor(run: seq<Attempt>): nat {
    if run == [] then 0
    else
      var last := run[|run| - 1];
      if last.committed then last.reach else Cursor(run[..|run| - 1])
  }

  /** The farthest position any pass has got to. */
  function Farthest(run: seq<Attempt>): nat {
    if run == [] then 0
    else
      var before, reach := Farthest(run[..|run| - 1]), run[|run| - 1].reach;
      if reach < before then before else reach
  }

  /** Every pass goes from the cursor to somewhere at or after it, within the stream. */
  predicate ValidRun(run: seq<Attempt>, n: nat) {
    run == [] ||
    (var front, last := run[..|run| - 1], run[|run| - 1];
     ValidRun(front, n) && Cursor(front) <= last.reach <= n)
  }

  /** Everything handled during the run, in order, repetitions included. */
  function Word<T>(s: seq<T>, run: seq<Attempt>): seq<T>
    requires ValidRun(run, |s|)
  {
    if run == [] then []
    else
      var front, last := run[..|run| - 1], run[|run| - 1];
      Word(s, front) + s[Cursor(front)..last.reach]
  }

  lemma {:induction false} CursorBound(run: seq<Attempt>, n: nat)
    requires ValidRun(run, n)
    ensures Cursor(run) <= Farthest(run) <= n
    decreases |run|
  {
    if run != [] {
      CursorBound(run[..|run| - 1], n);
    }
  }

  /** In the stream, every patch comes after a put of its key. */
  predicate PutFirst<K(==), I, A, B>(s: seq<Op<K, I, A, B>>) {
    forall i :: 0 <= i < |s| && s[i].Patch? ==> HasPut(s[..i], s[i].key)
  }

  /** The table holds every row the stream has created up to the cursor. */
  predicate HoldsPuts<K(==), I, A, B>(s: seq<Op<K, I, A, B>>, c: nat, t: Table<K, I, A, B>) {
    forall i :: 0 <= i < c <= |s| && s[i].Put? ==> s[i].key in t
  }

  lemma GroundedSegment<K, I, A, B>(s: seq<Op<K, I, A, B>>, c: nat, k: nat, t: Table<K, I, A, B>)
    requires PutFirst(s) && c <= k <= |s| && HoldsPuts(s, c, t)
    ensures Grounded(s[c..k], t)
  {
    var seg := s[c..k];
    forall i | 0 <= i < |seg| && seg[i].Patch?
      ensures seg[i].key in t || HasPut(seg[..i], seg[i].key)
    {
      var n := c + i;
      assert s[n] == seg[i];
      var j :| 0 <= j < n && s[..n][j].Put? && s[..n][j].key == s[n].key;
      if j >= c {
        assert seg[..i][j - c] == s[j];
      }
    }
  }

  lemma HoldsPutsAfter<K, I, A, B>(s: seq<Op<K, I, A, B>>, c: nat, k: nat, fresh0: B, t: Table<K, I, A, B>)
    requires c <= k <= |s| && HoldsPuts(s, c, t)
    ensures HoldsPuts(s, k, Fold(s[c..k], fresh0, t))
  {
    forall i | 0 <= i < k && s[i].Put?
      ensures s[i].key in Fold(s[c..k], fresh0, t)
    {
      FoldKeys(s[c..k], fresh0, t, s[i].key);
      if i >= c {
        assert s[c..k][i - c] == s[i];
      }
    }
  }

  lemma HoldsPutsStill<K, I, A, B>(s: seq<Op<K, I, A, B>>, c: nat, ops: seq<Op<K, I, A, B>>, fresh0: B, t: Table<K, I, A, B>)
    requires c <= |s| && HoldsPuts(s, c, t)
    ensures HoldsPuts(s, c, Fold(ops, fresh0, t))
  {
    forall i | 0 <= i < c && s[i].Put?
      ensures s[i].key in Fold(ops, fresh0, t)
    {
      FoldKeys(ops, fresh0, t, s[i].key);
    }
  }

  lemma CommitStep<K, I, A, B>(s: seq<Op<K, I, A, B>>, c: nat, k: nat, j: nat, fresh0: B, t: Table<K, I, A, B>)
    requires c <= k <= j <= |s| && HoldsPuts(s, c, t)
    ensures HoldsPuts(s, k, Fold(s[c..k], fresh0, t))
    ensures Fold(s[k..j], fresh0, Fold(s[c..k], fresh0, t)) == Fold(s[c..j], fresh0, t)
  {
    hide Fold, HoldsPuts;
    assert s[c..j] == s[c..k] + s[k..j];
    FoldAppend(s[c..k], s[k..j], fresh0, t);
    HoldsPutsAfter(s, c, k, fresh0, t);
  }

  lemma CrashStep<K, I, A, B>(s: seq<Op<K, I, A, B>>, c: nat, k: nat, j: nat, fresh0: B, t: Table<K, I, A, B>)
    requires c <= k <= j <= |s| && HoldsPuts(s, c, t) && PutFirst(s)
    ensures HoldsPuts(s, c, Fold(s[c..k], fresh0, t))
    ensures Fold(s[c..j], fresh0, Fold(s[c..k], fresh0, t)) == Fold(s[c..j], fresh0, t)
  {
    hide Fold, HoldsPuts, PutFirst, Grounded;
    assert s[c..j] == s[c..k] + s[k..j];
    GroundedSegment(s, c, k, t);
    StartOver(s[c..k], s[k..j], fresh0, t);
    HoldsPutsStill(s, c, s[c..k], fresh0, t);
  }

  /**
   However a run has crashed so far, replaying the stream from its cursor to any position
   no pass has been beyond gives the table one uninterrupted pass to that position gives.
   */
  lemma {:induction false} ReplayFromCursor<K, I, A, B>(s: seq<Op<K, I, A, B>>, run: seq<Attempt>, fresh0: B, j: nat)
    requires ValidRun(run, |s|) && PutFirst(s) && Farthest(run) <= j <= |s|
    ensures Cursor(run) <= j
    ensures HoldsPuts(s, Cursor(run), Fold(Word(s, run), fresh0, map[]))
    ensures Fold(s[Cursor(run)..j], fresh0, Fold(Word(s, run), fresh0, map[])) == Fold(s[..j], fresh0, map[])
    decreases |run|
  {
    CursorBound(run, |s|);
    if run == [] {
      assert s[0..j] == s[..j];
    } else {
      hide Fold, PutFirst, HoldsPuts;
      var front, last := run[..|run| - 1], run[|run| - 1];
      var c, k := Cursor(front), last.reach;
      var t := Fold(Word(s, front), fresh0, map[]);
      ReplayFromCursor(s, front, fresh0, j);
      FoldAppend(Word(s, front), s[c..k], fresh0, map[]);
      if last.committed {
        CommitStep(s, c, k, j, fresh0, t);
      } else {
        CrashStep(s, c, k, j, fresh0, t);
      }
    }
  }

  /** Once the cursor is where the farthest pass got to, the crashes have left no trace. */
  lemma Converges<K, I, A, B>(s: seq<Op<K, I, A, B>>, run: seq<Attempt>, fresh0: B)
    requires ValidRun(run, |s|) && PutFirst(s) && Farthest(run) == Cursor(run)
    ensures Fold(Word(s, run), fresh0, map[]) == Fold(s[..Cursor(run)], fresh0, map[])
  {
    CursorBound(run, |s|);
    ReplayFromCursor(s, run, fresh0, Cursor(run));
    assert s[Cursor(run)..Cursor(run)] == [];
  }
}
