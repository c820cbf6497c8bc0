/**
 Which of the feed's listings are newest-first when the tables come from the indexer, on a
 chain whose block timestamps do not fall and with a clock that does not go back.
 */
module FeedOrder {
  import opened Replay
  import opened IndexerTables
  import opened IndexerRuns
  import opened IntentRuns
  import opened Indexable
  import opened Challengeable
  import opened ChainBlocks
  import opened PollerHistory
  import opened NewestFirst
  import opened Listings
  import opened Feed

  // ----- what the logs are like

  /** Timestamps follow blocks. */
  predicate Timely(s: seq<Log>) {
    forall a, b :: a in s && b in s && a.block <= b.block ==> a.blockTimestamp <= b.blockTimestamp
  }

  /** A receipt carries its block's timestamp. */
  predicate Punctual(s: seq<Log>) {
    forall l :: l in s && l.event.ActionReceipt? ==> l.event.timestamp == l.blockTimestamp
  }

  predicate Resolves(b: Log, a: Log) {
    a.event.ChallengeFiled? && b.event.ChallengeResolved? && a.event.challengeId == b.event.resolvedId
  }

  /** No challenge is resolved in an earlier block than it was filed in. */
  predicate ResolvedAfterFiled(s: seq<Log>) {
    forall a, b :: a in s && b in s && Resolves(b, a) ==> a.block <= b.block
  }

  /** Every challenge is resolved in the block it is filed in. */
  predicate ResolvedAtOnce(s: seq<Log>) {
    forall a, b :: a in s && b in s && Resolves(b, a) ==> a.block == b.block
  }

  /** Handling goes back to an earlier block only to repeat a log. */
  predicate OnlyRepeatsGoBack(w: seq<Log>) {
    forall i, j :: 0 <= i < j < |w| && w[i].block > w[j].block ==> w[j] in w[..i]
  }

  predicate RisingClock(w: seq<Handled>) {
    forall i, j :: 0 <= i < j < |w| ==> w[i].now <= w[j].now
  }

  // ----- receipts and challenges: their rows are written by their logs

  predicate ReceiptOf(l: Log, id: nat, cols: ReceiptCols) {
    l.event.ActionReceipt? && l.event.receiptId == id && cols.block == l.block && cols.ts == l.event.timestamp
  }

  predicate FilingOf(l: Log, id: nat, cols: FiledCols) {
    l.event.ChallengeFiled? && l.event.challengeId == id && cols.filedBlock == l.block && cols.filedAt == l.blockTimestamp
  }

  predicate ResolutionOf(l: Log, id: nat, cols: ResolvedCols) {
    l.event.ChallengeResolved? && l.event.resolvedId == id && cols.resolvedAt == Some(l.blockTimestamp)
  }

  lemma {:induction false} ReceiptWritten(w: seq<Handled>, id: nat)
    requires id in FoldLogs(w).receipts
    ensures exists l :: l in LogsOf(w) && ReceiptOf(l, id, FoldLogs(w).receipts[id].main)
    decreases |w|
  {
    var front, last := w[..|w| - 1], w[|w| - 1];
    LogsOfFront(w);
    hide LogsOf;
    if last.log.event.ActionReceipt? && last.log.event.receiptId == id {
      assert last.log in LogsOf(w) && ReceiptOf(last.log, id, FoldLogs(w).receipts[id].main);
    } else {
      ReceiptWritten(front, id);
      var l :| l in LogsOf(front) && ReceiptOf(l, id, FoldLogs(front).receipts[id].main);
      assert l in LogsOf(w);
    }
  }

  lemma {:induction false} FilingWritten(w: seq<Handled>, id: nat)
    requires id in FoldLogs(w).challenges
    ensures exists l :: l in LogsOf(w) && FilingOf(l, id, FoldLogs(w).challenges[id].main)
    decreases |w|
  {
    var front, last := w[..|w| - 1], w[|w| - 1];
    LogsOfFront(w);
    hide LogsOf;
    if last.log.event.ChallengeFiled? && last.log.event.challengeId == id {
      assert last.log in LogsOf(w) && FilingOf(last.log, id, FoldLogs(w).challenges[id].main);
    } else {
      FilingWritten(front, id);
      var l :| l in LogsOf(front) && FilingOf(l, id, FoldLogs(front).challenges[id].main);
      assert l in LogsOf(w);
    }
  }

  lemma {:induction false} ResolutionWritten(w: seq<Handled>, id: nat)
    requires id in FoldLogs(w).challenges && FoldLogs(w).challenges[id].extra.resolvedAt.Some?
    ensures exists l :: l in LogsOf(w) && ResolutionOf(l, id, FoldLogs(w).challenges[id].extra)
    decreases |w|
  {
    var front, last := w[..|w| - 1], w[|w| - 1];
    LogsOfFront(w);
    hide LogsOf;
    if last.log.event.ChallengeResolved? && last.log.event.resolvedId == id {
      assert last.log in LogsOf(w) && ResolutionOf(last.log, id, FoldLogs(w).challenges[id].extra);
    } else {
      ResolutionWritten(front, id);
      var l :| l in LogsOf(front) && ResolutionOf(l, id, FoldLogs(front).challenges[id].extra);
      assert l in LogsOf(w);
    }
  }

  lemma ReceiptsFollowBlocks(w: seq<Handled>)
    requires Timely(LogsOf(w)) && Punctual(LogsOf(w))
    ensures ReceiptsChronological(FoldLogs(w))
  {
    var t := FoldLogs(w).receipts;
    hide FoldLogs, LogsOf;
    forall x, y | x in t && y in t
      ensures t[x].main.block >= t[y].main.block ==> t[x].main.ts >= t[y].main.ts
    {
      ReceiptWritten(w, x);
      ReceiptWritten(w, y);
      var a :| a in LogsOf(w) && ReceiptOf(a, x, t[x].main);
      var b :| b in LogsOf(w) && ReceiptOf(b, y, t[y].main);
    }
  }

  lemma ChallengesFollowBlocks(w: seq<Handled>)
    requires Timely(LogsOf(w))
    ensures ChallengesChronological(FoldLogs(w))
  {
    var t := FoldLogs(w).challenges;
    hide FoldLogs, LogsOf;
    forall x, y | x in t && y in t
      ensures t[x].main.filedBlock >= t[y].main.filedBlock ==> t[x].main.filedAt >= t[y].main.filedAt
    {
      FilingWritten(w, x);
      FilingWritten(w, y);
      var a :| a in LogsOf(w) && FilingOf(a, x, t[x].main);
      var b :| b in LogsOf(w) && FilingOf(b, y, t[y].main);
    }
  }

  /** A challenge's stamp is not before its filing, and is its filing when it is resolved at once. */
  lemma StampAfterFiling(w: seq<Handled>, id: nat)
    requires Timely(LogsOf(w)) && ResolvedAfterFiled(LogsOf(w)) && id in FoldLogs(w).challenges
    ensures FoldLogs(w).challenges[id].main.filedAt <= Stamp(FoldLogs(w), id)
    ensures ResolvedAtOnce(LogsOf(w)) ==> Stamp(FoldLogs(w), id) == FoldLogs(w).challenges[id].main.filedAt
  {
    hide FoldLogs, LogsOf;
    var row := FoldLogs(w).challenges[id];
    if row.extra.resolvedAt.Some? {
      FilingWritten(w, id);
      ResolutionWritten(w, id);
      var a :| a in LogsOf(w) && FilingOf(a, id, row.main);
      var b :| b in LogsOf(w) && ResolutionOf(b, id, row.extra);
      assert Resolves(b, a);
    }
  }

  // ----- intents: created_at is the clock at the first handling

  predicate CreatedBy(t: Intents, now: int) {
    forall x :: x in t ==> t[x].createdAt <= now
  }

  /** A row of a later block was not created before one of an earlier block. */
  predicate CreatedInOrder(t: Intents) {
    forall x, y :: x in t && y in t && t[x].block > t[y].block ==> t[x].createdAt >= t[y].createdAt
  }

  lemma DeactivateKeepsOrder(t: Intents, owner: nat, now: int)
    ensures CreatedInOrder(Deactivate(t, owner)) <==> CreatedInOrder(t)
    ensures CreatedBy(Deactivate(t, owner), now) <==> CreatedBy(t, now)
  {
    var off := Deactivate(t, owner);
    assert off.Keys == t.Keys;
    assert forall x :: x in t ==> off[x].block == t[x].block && off[x].createdAt == t[x].createdAt;
    hide Deactivate;
  }

  lemma InsertKeepsOrder(t: Intents, h: nat, row: IntentRow)
    requires CreatedInOrder(t) && CreatedBy(t, row.createdAt) && h !in t
    requires forall x :: x in t ==> t[x].block <= row.block
    ensures CreatedInOrder(t[h := row]) && CreatedBy(t[h := row], row.createdAt)
  {
  }

  /** Every row is of the block of a commit handled. */
  lemma RowOfHandled(front: seq<Handled>, x: nat)
    requires UniqueProvenance(LogsOf(front)) && FreshHashes(LogsOf(front)) && x in FoldLogs(front).intents
    ensures exists l :: l in LogsOf(front) && l.block == FoldLogs(front).intents[x].block
  {
    EraseFold(front);
    var ls := LogsOf(front);
    var t := Clean(ls).intents;
    assert x in t && t[x].block == FoldLogs(front).intents[x].block;
    hide FoldLogs, LogsOf, Clean, UniqueProvenance, FreshHashes;
    IntentRows(ls);
    assert FromLog(ls, x);
    var l :| l in ls && l.event.IntentCommitted? && l.event.committedHash == x;
    assert RowOf(t, l);
  }

  lemma NotEarlier(ls: seq<Log>, log: Log, l: Log)
    requires OnlyRepeatsGoBack(ls + [log]) && log !in ls && l in ls
    ensures l.block <= log.block
  {
    var i :| 0 <= i < |ls| && ls[i] == l;
    var w := ls + [log];
    assert w[i] == l && w[|ls|] == log && w[..i] == ls[..i];
    assert log in ls[..i] ==> log in ls;
  }

  /** A log not handled before is of no earlier block than any row. */
  lemma NewIntentIsLatest(w: seq<Handled>, front: seq<Handled>, log: Log, x: nat)
    requires w != [] && front == w[..|w| - 1] && log == w[|w| - 1].log && log !in LogsOf(front)
    requires UniqueProvenance(LogsOf(w)) && FreshHashes(LogsOf(w)) && OnlyRepeatsGoBack(LogsOf(w))
    requires x in FoldLogs(front).intents
    ensures FoldLogs(front).intents[x].block <= log.block
  {
    LogsOfFront(w);
    hide FoldLogs, LogsOf, UniqueProvenance, FreshHashes, OnlyRepeatsGoBack;
    SubLogs(LogsOf(w), LogsOf(front));
    RowOfHandled(front, x);
    var l :| l in LogsOf(front) && l.block == FoldLogs(front).intents[x].block;
    NotEarlier(LogsOf(front), log, l);
  }

  lemma {:induction false} IntentsFollowBlocks(w: seq<Handled>)
    requires UniqueProvenance(LogsOf(w)) && FreshHashes(LogsOf(w))
    requires OnlyRepeatsGoBack(LogsOf(w)) && RisingClock(w)
    ensures CreatedInOrder(FoldLogs(w).intents)
    ensures w != [] ==> CreatedBy(FoldLogs(w).intents, w[|w| - 1].now)
    decreases |w|
  {
    if w != [] {
      var front, last := w[..|w| - 1], w[|w| - 1];
      FrontOrder(w);
      IntentsFollowBlocks(front);
      var t := FoldLogs(front).intents;
      assert FoldLogs(w).intents == IntentStep(last.log, last.now, t);
      assert CreatedBy(t, last.now) by {
        if front != [] {
          assert front[|front| - 1].now <= last.now;
        }
      }
      hide FoldLogs, UniqueProvenance, FreshHashes, OnlyRepeatsGoBack, CreatedBy, CreatedInOrder, Committed, Deactivate;
      match last.log.event
      case IntentCommitted(h, owner, _) =>
        CommitKeepsOrder(w);
      case IntentRevoked(owner) =>
        DeactivateKeepsOrder(t, owner, last.now);
      case _ =>
    }
  }

  lemma FrontOrder(w: seq<Handled>)
    requires w != [] && UniqueProvenance(LogsOf(w)) && FreshHashes(LogsOf(w))
    requires OnlyRepeatsGoBack(LogsOf(w)) && RisingClock(w)
    ensures var front := w[..|w| - 1];
            UniqueProvenance(LogsOf(front)) && FreshHashes(LogsOf(front)) && OnlyRepeatsGoBack(LogsOf(front)) &&
            RisingClock(front)
  {
    LogsOfFront(w);
    var ls, front := LogsOf(w), LogsOf(w[..|w| - 1]);
    hide LogsOf;
    SubLogs(ls, front);
    forall i, j | 0 <= i < j < |front| && front[i].block > front[j].block
      ensures front[j] in front[..i]
    {
      assert ls[i] == front[i] && ls[j] == front[j] && ls[..i] == front[..i];
    }
  }

  lemma CommitKeepsOrder(w: seq<Handled>)
    requires w != [] && w[|w| - 1].log.event.IntentCommitted?
    requires UniqueProvenance(LogsOf(w)) && FreshHashes(LogsOf(w)) && OnlyRepeatsGoBack(LogsOf(w))
    requires var t := FoldLogs(w[..|w| - 1]).intents; CreatedInOrder(t) && CreatedBy(t, w[|w| - 1].now)
    ensures var last := w[|w| - 1];
            var u := Committed(FoldLogs(w[..|w| - 1]).intents, last.log, last.now);
            CreatedInOrder(u) && CreatedBy(u, last.now)
  {
    var front, last := w[..|w| - 1], w[|w| - 1];
    var t, owner := FoldLogs(front).intents, last.log.event.committer;
    var off := Deactivate(t, owner);
    DeactivateKeepsOrder(t, owner, last.now);
    DeactivateKeepsProvenance(t, owner, last.log.tx, last.log.index);
    DeactivateBlocks(t, owner);
    hide Deactivate, CreatedInOrder, CreatedBy, OnlyRepeatsGoBack;
    if !HasProvenance(off, last.log.tx, last.log.index) {
      NotHandledBefore(w, front, last.log);
      forall x | x in t
        ensures t[x].block <= last.log.block
      {
        NewIntentIsLatest(w, front, last.log, x);
      }
      InsertKeepsOrder(off, last.log.event.committedHash, NewIntent(last.log, last.now));
    }
  }

  lemma DeactivateBlocks(t: Intents, owner: nat)
    ensures Deactivate(t, owner).Keys == t.Keys
    ensures forall x :: x in t ==> Deactivate(t, owner)[x].block == t[x].block
  {
  }

  /** Without a row of its provenance, a log has not been handled and its hash is new. */
  lemma NotHandledBefore(w: seq<Handled>, front: seq<Handled>, log: Log)
    requires w != [] && front == w[..|w| - 1] && log == w[|w| - 1].log && log.event.IntentCommitted?
    requires UniqueProvenance(LogsOf(w)) && FreshHashes(LogsOf(w))
    requires !HasProvenance(FoldLogs(front).intents, log.tx, log.index)
    ensures log !in LogsOf(front) && log.event.committedHash !in FoldLogs(front).intents
  {
    LogsOfFront(w);
    EraseFold(front);
    var ls := LogsOf(front);
    ErasedProvenance(FoldLogs(front).intents, log.tx, log.index);
    assert EraseIntents(FoldLogs(front).intents) == Clean(ls).intents;
    hide FoldLogs, LogsOf, Clean, UniqueProvenance, FreshHashes, HasProvenance;
    SubLogs(LogsOf(w), ls);
    IntentRows(ls);
    RowsMatchProvenance(Clean(ls).intents, ls, log);
    NewHash(Clean(ls).intents, ls, log);
  }

  // ----- runs of the poller only go back to repeat

  /** Every log handled is one of the stream, and all before it in the stream were handled before. */
  predicate Explored(s: seq<Log>, w: seq<Log>) {
    forall i :: 0 <= i < |w| ==> ExploredAt(s, w, i)
  }

  predicate ExploredAt(s: seq<Log>, w: seq<Log>, i: nat)
    requires i < |w|
  {
    exists q :: 0 <= q < |s| && w[i] == s[q] && forall p :: 0 <= p < q ==> s[p] in w[..i]
  }

  lemma {:induction false} WordExplores(s: seq<Log>, run: seq<Attempt>)
    requires ValidRun(run, |s|)
    ensures Explored(s, Word(s, run))
    decreases |run|
  {
    if run != [] {
      var front, last := run[..|run| - 1], run[|run| - 1];
      var c := Cursor(front);
      CursorBound(front, |s|);
      WordExplores(s, front);
      var u, seg := Word(s, front), s[c..last.reach];
      forall i: nat | i < |u + seg|
        ensures ExploredAt(s, u + seg, i)
      {
        if i < |u| {
          StillExplored(s, u, seg, i);
        } else {
          NewlyExplored(s, front, c, last.reach, i - |u|);
        }
      }
    }
  }

  lemma StillExplored(s: seq<Log>, u: seq<Log>, v: seq<Log>, i: nat)
    requires i < |u| && ExploredAt(s, u, i)
    ensures ExploredAt(s, u + v, i)
  {
    assert (u + v)[..i] == u[..i];
    var q :| 0 <= q < |s| && u[i] == s[q] && forall p :: 0 <= p < q ==> s[p] in u[..i];
    assert (u + v)[i] == s[q];
  }

  lemma NewlyExplored(s: seq<Log>, front: seq<Attempt>, c: nat, k: nat, m: nat)
    requires ValidRun(front, |s|) && c == Cursor(front) <= k <= |s| && m < k - c
    ensures ExploredAt(s, Word(s, front) + s[c..k], |Word(s, front)| + m)
  {
    hide Word, ValidRun, Cursor;
    var u, seg := Word(s, front), s[c..k];
    Appended(u, seg, m);
    assert seg[m] == s[c + m] && seg[..m] == s[c..c + m];
    forall p | 0 <= p < c + m
      ensures s[p] in u + seg[..m]
    {
      if p < c {
        WordCovers(s, front, p);
      } else {
        assert seg[..m][p - c] == s[p];
      }
    }
  }

  lemma Appended(u: seq<Log>, seg: seq<Log>, m: nat)
    requires m < |seg|
    ensures (u + seg)[|u| + m] == seg[m] && (u + seg)[..|u| + m] == u + seg[..m]
  {
  }

  lemma ExploredOnlyRepeats(s: seq<Log>, w: seq<Log>)
    requires Explored(s, w)
    requires forall i, j :: 0 <= i <= j < |s| ==> s[i].block <= s[j].block
    ensures OnlyRepeatsGoBack(w)
  {
    forall i: nat, j: nat | i < j < |w| && w[i].block > w[j].block
      ensures w[j] in w[..i]
    {
      assert ExploredAt(s, w, i) && ExploredAt(s, w, j);
      var q :| 0 <= q < |s| && w[i] == s[q] && forall p :: 0 <= p < q ==> s[p] in w[..i];
      var p :| 0 <= p < |s| && w[j] == s[p];
      assert p < q;
    }
  }

  /** On a stamped chain with rising timestamps, so it is for everything a poller has handled. */
  lemma HandledInOrder(chain: seq<Block>, first: nat, span: nat, past: Past, lastBlock: Option<int>, tables: Tables)
    requires Explains(chain, first, span, past, lastBlock, tables) && Stamped(chain) && RisingTimestamps(chain)
    ensures OnlyRepeatsGoBack(LogsOf(past.handled)) && Timely(LogsOf(past.handled))
  {
    hide LogsIn, Word, ValidRun, FoldLogs, LogsOf, Cursor, Pos, Explored, OnlyRepeatsGoBack;
    var s := Stream(chain, first);
    WordExplores(s, past.run);
    forall i: nat, j: nat | i <= j < |s|
      ensures s[i].block <= s[j].block
    {
      RangeAscends(chain, first, |chain|, i, j);
    }
    ExploredOnlyRepeats(s, LogsOf(past.handled));
    WordFromStream(s, past.run);
    forall l | l in s
      ensures l.block < |chain| && l.blockTimestamp == chain[l.block].timestamp
    {
      var i :| 0 <= i < |s| && s[i] == l;
      RangeStamped(chain, first, |chain|, i);
    }
  }

  // ----- the feed

  /** Intents of one block are listed latest-created first; which of them comes first is the database's choice. */
  predicate BlockTiesByClock(t: Intents, hashes: seq<nat>) {
    forall i, j :: 0 <= i < j < |hashes| && hashes[i] in t && hashes[j] in t ==>
      var a, b := t[hashes[i]], t[hashes[j]];
      a.block == b.block ==> a.createdAt >= b.createdAt
  }

  /** The intent listing is newest-first exactly when its same-block ties are. */
  lemma IntentsNewestFirstIff(r: Reads, owner: nat, l: Rows, w: seq<Handled>)
    requires r.tables == FoldLogs(w) && Unlimited(r, owner, l) && Listed(r, l)
    requires UniqueProvenance(LogsOf(w)) && FreshHashes(LogsOf(w))
    requires OnlyRepeatsGoBack(LogsOf(w)) && RisingClock(w)
    ensures Descending(Sources(r, l)[2]) <==> BlockTiesByClock(r.tables.intents, l.intents)
  {
    var t, s := r.tables.intents, Sources(r, l)[2];
    IntentsFollowBlocks(w);
    IntentSource(r, l);
    hide Sources, FoldLogs, LogsOf, UniqueProvenance, FreshHashes, OnlyRepeatsGoBack, RisingClock;
    forall i: nat, j: nat | i < j < |s|
      ensures s[i].timestamp == t[l.intents[i]].createdAt && s[j].timestamp == t[l.intents[j]].createdAt
      ensures t[l.intents[i]].block != t[l.intents[j]].block ==> s[i].timestamp >= s[j].timestamp
    {
      OldPair(l.intents, IntentRanks(r.tables, owner), i, j);
    }
    if Descending(s) {
      forall i: nat, j: nat | i < j < |l.intents| && t[l.intents[i]].block == t[l.intents[j]].block
        ensures t[l.intents[i]].createdAt >= t[l.intents[j]].createdAt
      {
        assert s[i].timestamp >= s[j].timestamp;
      }
    }
  }

  /** No challenge was resolved after the stamp of one listed before it. */
  predicate NoLateResolution(t: Tables, ids: seq<nat>) {
    forall i, j :: 0 <= i < j < |ids| && ids[i] in t.challenges && ids[j] in t.challenges ==>
      var resolvedAt := t.challenges[ids[j]].extra.resolvedAt;
      resolvedAt.Some? ==> resolvedAt.value <= Stamp(t, ids[i])
  }

  /**
   The feed over tables the indexer has filled: receipts and blocked attempts are always
   newest-first, challenges exactly without late resolutions, intents exactly when same-block
   ties are; and when all are, the limits of the queries do not show.
   */
  lemma IndexedFeed(r: Reads, owner: nat, l: Rows, w: seq<Handled>, limit: nat)
    requires r.tables == FoldLogs(w) && Unlimited(r, owner, l) && Listed(r, l)
    requires UniqueProvenance(LogsOf(w)) && FreshHashes(LogsOf(w))
    requires OnlyRepeatsGoBack(LogsOf(w)) && RisingClock(w)
    requires Timely(LogsOf(w)) && Punctual(LogsOf(w)) && ResolvedAfterFiled(LogsOf(w))
    ensures Descending(Sources(r, l)[0]) && Descending(Sources(r, l)[3])
    ensures Descending(Sources(r, l)[1]) <==> NoLateResolution(r.tables, l.challenges)
    ensures Descending(Sources(r, l)[2]) <==> BlockTiesByClock(r.tables.intents, l.intents)
    ensures NoLateResolution(r.tables, l.challenges) && BlockTiesByClock(r.tables.intents, l.intents) ==>
      Listed(r, Limited(l, limit)) && Served(r, l, limit) == Complete(r, l, limit)
  {
    hide Sources, FoldLogs, LogsOf, UniqueProvenance, FreshHashes, OnlyRepeatsGoBack, RisingClock, Timely, Punctual,
      ResolvedAfterFiled, ReceiptsChronological, ChallengesChronological, Descending, Unlimited, Served, Complete,
      ReceiptOrder, ChallengeOrder, BlockTiesByClock, Limited, Stamp;
    ReceiptsFollowBlocks(w);
    ChallengesFollowBlocks(w);
    UnlimitedRows(r, owner, l);
    ReceiptsNewestFirst(r, l);
    BlockedNewestFirst(r, owner, l);
    IntentsNewestFirstIff(r, owner, l, w);
    forall id | id in r.tables.challenges
      ensures r.tables.challenges[id].main.filedAt <= Stamp(r.tables, id)
    {
      StampAfterFiling(w, id);
    }
    ChallengesNewestFirstIff(r, l);
    if Descending(Sources(r, l)[1]) && Descending(Sources(r, l)[2]) {
      OwnersNewest(r, owner, l, limit);
    }
  }

  /** Challenges resolved in the block they are filed in never have a late resolution. */
  lemma AtOnceIsNeverLate(r: Reads, owner: nat, l: Rows, w: seq<Handled>)
    requires r.tables == FoldLogs(w) && Unlimited(r, owner, l) && Listed(r, l)
    requires Timely(LogsOf(w)) && ResolvedAfterFiled(LogsOf(w)) && ResolvedAtOnce(LogsOf(w))
    ensures NoLateResolution(r.tables, l.challenges)
  {
    hide FoldLogs, LogsOf, Timely, ResolvedAfterFiled, ResolvedAtOnce, Unlimited;
    var t := r.tables;
    UnlimitedRows(r, owner, l);
    ChallengesFollowBlocks(w);
    forall i: nat, j: nat | i < j < |l.challenges|
      ensures Stamp(t, l.challenges[j]) <= Stamp(t, l.challenges[i])
    {
      StampAfterFiling(w, l.challenges[i]);
      StampAfterFiling(w, l.challenges[j]);
    }
  }

  lemma SubTimes(s: seq<Log>, w: seq<Log>)
    requires forall l :: l in w ==> l in s
    ensures Punctual(s) ==> Punctual(w)
    ensures ResolvedAtOnce(s) ==> ResolvedAtOnce(w) && ResolvedAfterFiled(w)
  {
  }

  /**
   The feed of a poller's database, after any crashes, when challenges are resolved at once:
   it is the newest of all the owner's entries, whatever the limit, unless intents of one
   block are listed earliest-created first.
   */
  lemma PolledFeed(r: Reads, owner: nat, l: Rows, chain: seq<Block>, first: nat, span: nat, past: Past,
                   lastBlock: Option<int>, limit: nat)
    requires Explains(chain, first, span, past, lastBlock, r.tables) && Stamped(chain) && RisingTimestamps(chain)
    requires UniqueProvenance(Stream(chain, first)) && FreshHashes(Stream(chain, first))
    requires Punctual(Stream(chain, first)) && ResolvedAtOnce(Stream(chain, first)) && RisingClock(past.handled)
    requires Unlimited(r, owner, l)
    ensures Listed(r, l) && Listed(r, Limited(l, limit))
    ensures BlockTiesByClock(r.tables.intents, l.intents) ==> Served(r, l, limit) == Complete(r, l, limit)
  {
    hide Stream, Word, ValidRun, FoldLogs, LogsOf, Cursor, Pos, OnlyRepeatsGoBack, RisingClock, Timely, Punctual,
      ResolvedAfterFiled, ResolvedAtOnce, UniqueProvenance, FreshHashes, Stamped, RisingTimestamps, Unlimited, Sources,
      Served, Complete, NoLateResolution, BlockTiesByClock, Limited;
    var s, w := Stream(chain, first), past.handled;
    HandledInOrder(chain, first, span, past, lastBlock, r.tables);
    WordFromStream(s, past.run);
    SubLogs(s, LogsOf(w));
    SubTimes(s, LogsOf(w));
    UnlimitedRows(r, owner, l);
    LimitedSources(r, l, limit);
    AtOnceIsNeverLate(r, owner, l, w);
    IndexedFeed(r, owner, l, w, limit);
  }
}
