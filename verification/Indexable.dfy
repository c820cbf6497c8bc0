/**
 Which streams of logs the indexer can get through without a constraint error.
 */
module Indexable {
  import opened Replay
  import opened IndexerTables
  import opened IndexerRuns
  import opened IntentRuns

  /** Each log in turn is handled without a constraint error. */
  predicate ViolationFree(w: seq<Log>) {
    w == [] || (ViolationFree(w[..|w| - 1]) && !Violates(w[|w| - 1], Clean(w[..|w| - 1])))
  }

  predicate ReceiptFrom(w: seq<Log>, k: nat, cols: ReceiptCols) {
    exists l :: l in w && l.event.ActionReceipt? && l.event.receiptId == k && l.tx == cols.tx && l.index == cols.index
  }

  lemma {:induction false} ReceiptRows(w: seq<Log>)
    ensures forall k :: k in Clean(w).receipts ==> ReceiptFrom(w, k, Clean(w).receipts[k].main)
    decreases |w|
  {
    if w != [] {
      var front, last := w[..|w| - 1], w[|w| - 1];
      FrontIsSub(w);
      ReceiptRows(front);
      forall k | k in Clean(w).receipts
        ensures ReceiptFrom(w, k, Clean(w).receipts[k].main)
      {
        if last.event.ActionReceipt? && last.event.receiptId == k {
          assert last in w;
        } else {
          var cols := Clean(front).receipts[k].main;
          assert ReceiptFrom(front, k, cols);
          var l :| l in front && l.event.ActionReceipt? && l.event.receiptId == k && l.tx == cols.tx && l.index == cols.index;
          assert l in w;
        }
      }
    }
  }

  lemma OwnProvenance(front: seq<Log>, last: Log, k: nat, cols: ReceiptCols)
    requires UniqueProvenance(front + [last]) && last.event.ActionReceipt? && ReceiptFrom(front, k, cols)
    ensures cols.tx == last.tx && cols.index == last.index ==> k == last.event.receiptId
  {
    var l :| l in front && l.event.ActionReceipt? && l.event.receiptId == k && l.tx == cols.tx && l.index == cols.index;
    assert l in front + [last] && last in front + [last];
  }

  lemma NoReceiptConflict(front: seq<Log>, last: Log)
    requires UniqueProvenance(front + [last]) && last.event.ActionReceipt?
    ensures !ReceiptConflict(Clean(front).receipts, last.event.receiptId, last.tx, last.index)
  {
    var t := Clean(front).receipts;
    ReceiptRows(front);
    hide Clean, UniqueProvenance, ReceiptFrom;
    forall k | k in t
      ensures t[k].main.tx == last.tx && t[k].main.index == last.index ==> k == last.event.receiptId
    {
      OwnProvenance(front, last, k, t[k].main);
    }
  }

  lemma NoViolationStep(front: seq<Log>, last: Log)
    requires UniqueProvenance(front + [last]) && FreshHashes(front + [last])
    ensures !Violates(last, Clean(front))
  {
    SubLogs(front + [last], front);
    if last.event.ActionReceipt? {
      NoReceiptConflict(front, last);
    }
    if last.event.IntentCommitted? {
      IntentRows(front);
      RowsMatchProvenance(Clean(front).intents, front, last);
      NewHash(Clean(front).intents, front, last);
    }
  }

  /** Constraint errors do not depend on the clock. */
  lemma ViolatesErased(log: Log, w: seq<Handled>)
    ensures Violates(log, FoldLogs(w)) == Violates(log, Clean(LogsOf(w)))
  {
    EraseFold(w);
    var t := FoldLogs(w);
    assert Erase(t) == Clean(LogsOf(w));
    hide FoldLogs, Clean, LogsOf;
    match log.event
    case IntentCommitted(_, _, _) => ErasedProvenance(t.intents, log.tx, log.index);
    case ActionReceipt(id, _, _, _, _, _, _, _, _, _, _) => ErasedConflict(t.receipts, id, log.tx, log.index);
    case _ =>
  }

  lemma ErasedConflict(t: Receipts, id: nat, tx: nat, index: nat)
    ensures ReceiptConflict(EraseReceipts(t), id, tx, index) == ReceiptConflict(t, id, tx, index)
  {
    var e := EraseReceipts(t);
    if k :| k in t && k != id && t[k].main.tx == tx && t[k].main.index == index {
      assert k in e && e[k].main.tx == tx && e[k].main.index == index;
    }
    if k :| k in e && k != id && e[k].main.tx == tx && e[k].main.index == index {
      assert k in t && t[k].main.tx == tx && t[k].main.index == index;
    }
  }

  /** With unique provenance and fresh hashes no statement ever fails, replays included. */
  lemma {:induction false} NeverViolates(w: seq<Log>)
    requires UniqueProvenance(w) && FreshHashes(w)
    ensures ViolationFree(w)
    decreases |w|
  {
    if w != [] {
      var front, last := w[..|w| - 1], w[|w| - 1];
      FrontIsSub(w);
      SubLogs(w, front);
      NeverViolates(front);
      NoViolationStep(front, last);
    }
  }

  /** Conversely, whatever is handled without an error committed no hash twice. */
  lemma {:induction false} ViolationFreeIsFresh(w: seq<Log>)
    requires UniqueProvenance(w) && ViolationFree(w)
    ensures FreshHashes(w)
    decreases |w|
  {
    if w != [] {
      var front, last := w[..|w| - 1], w[|w| - 1];
      FrontIsSub(w);
      SubLogs(w, front);
      ViolationFreeIsFresh(front);
      IntentRows(front);
      var t := Clean(front).intents;
      if last.event.IntentCommitted? {
        RowsMatchProvenance(t, front, last);
        forall l | l in front && l.event.IntentCommitted? && l.event.committedHash == last.event.committedHash
          ensures l == last
        {
          assert RowOf(t, l);
        }
      }
    }
  }

  lemma {:induction false} WordCovers(s: seq<Log>, run: seq<Attempt>, i: nat)
    requires ValidRun(run, |s|) && i < Cursor(run) <= |s|
    ensures s[i] in Word(s, run)
    decreases |run|
  {
    var front, last := run[..|run| - 1], run[|run| - 1];
    if last.committed && i >= Cursor(front) {
      assert s[Cursor(front)..last.reach][i - Cursor(front)] == s[i];
    } else {
      CursorBound(front, |s|);
      WordCovers(s, front, i);
    }
  }

  lemma ThroughIsFresh(s: seq<Log>, run: seq<Attempt>)
    requires UniqueProvenance(s) && ValidRun(run, |s|) && Cursor(run) == |s| && ViolationFree(Word(s, run))
    ensures FreshHashes(s)
  {
    WordFromStream(s, run);
    SubLogs(s, Word(s, run));
    ViolationFreeIsFresh(Word(s, run));
    hide ViolationFree, UniqueProvenance, ValidRun, Word;
    forall l | l in s
      ensures l in Word(s, run)
    {
      var i :| 0 <= i < |s| && s[i] == l;
      WordCovers(s, run, i);
    }
    SubLogs(Word(s, run), s);
  }

  /** Whatever happens on the way, no pass over a stream with fresh hashes fails on a constraint. */
  lemma FreshNeverFails(s: seq<Log>, run: seq<Attempt>)
    requires UniqueProvenance(s) && FreshHashes(s) && ValidRun(run, |s|)
    ensures ViolationFree(Word(s, run))
  {
    WordFromStream(s, run);
    SubLogs(s, Word(s, run));
    NeverViolates(Word(s, run));
  }

  lemma SinglePass(n: nat)
    ensures ValidRun([Attempt(n, true)], n) && Cursor([Attempt(n, true)]) == n
  {
    assert [Attempt(n, true)][..0] == [];
    assert ValidRun([], n) && Cursor([]) == 0;
  }

  /**
   The indexer can get through a stream exactly when no intent hash is committed twice: a
   second commit of a hash makes every pass fail at it, so no cursor ever passes it.
   */
  lemma IndexableIff(s: seq<Log>)
    requires UniqueProvenance(s)
    ensures (exists run :: ValidRun(run, |s|) && Cursor(run) == |s| && ViolationFree(Word(s, run))) <==> FreshHashes(s)
  {
    SinglePass(|s|);
    hide UniqueProvenance, FreshHashes, ViolationFree, Word, ValidRun, Cursor;
    if run :| ValidRun(run, |s|) && Cursor(run) == |s| && ViolationFree(Word(s, run)) {
      ThroughIsFresh(s, run);
    }
    if FreshHashes(s) {
      FreshNeverFails(s, [Attempt(|s|, true)]);
    }
  }
}
