/**
 What a poller has done so far: the block ranges it has committed, its passes over the log
 stream and the logs it has handled; and what follows for the checkpoint and the tables.
 */
module PollerHistory {
  import opened Replay
  import opened IndexerTables
  import opened IndexerRuns
  import opened IntentRuns
  import opened Indexable
  import opened ChainBlocks

  /** A committed block range, both ends included. */
  datatype Window = Window(from: nat, to: nat)

  datatype Past = Past(windows: seq<Window>, run: seq<Attempt>, handled: seq<Handled>)

  const NOTHING := Past([], [], [])

  /** Each range starts where the previous one ended, the first at block `first`, and spans at most span + 1 blocks. */
  predicate Contiguous(ws: seq<Window>, first: nat, span: nat) {
    (ws != [] ==> ws[0].from == first) && (forall i :: 0 < i < |ws| ==> ws[i].from == ws[i - 1].to + 1) &&
    (forall i :: 0 <= i < |ws| ==> ws[i].from <= ws[i].to <= ws[i].from + span)
  }

  /** The block the next range starts at. */
  function Next(ws: seq<Window>, first: nat): nat {
    if ws == [] then first else ws[|ws| - 1].to + 1
  }

  predicate Within(b: nat, w: Window) {
    w.from <= b <= w.to
  }

  lemma {:induction false} ContiguousAscends(ws: seq<Window>, first: nat, span: nat, i: nat, j: nat)
    requires Contiguous(ws, first, span) && i < j < |ws|
    ensures ws[i].to < ws[j].from
    decreases j
  {
    if i < j - 1 {
      ContiguousAscends(ws, first, span, i, j - 1);
    }
  }

  lemma {:induction false} CoveringWindow(ws: seq<Window>, first: nat, span: nat, b: nat)
    requires Contiguous(ws, first, span)
    ensures first <= b < Next(ws, first) <==> exists i :: 0 <= i < |ws| && Within(b, ws[i])
    decreases |ws|
  {
    if ws != [] {
      var front, last := ws[..|ws| - 1], ws[|ws| - 1];
      assert Contiguous(front, first, span);
      CoveringWindow(front, first, span, b);
      if i :| 0 <= i < |front| && Within(b, front[i]) {
        assert Within(b, ws[i]);
        ContiguousAscends(ws, first, span, i, |ws| - 1);
      }
      if i :| 0 <= i < |ws| && Within(b, ws[i]) {
        if i < |front| {
          assert Within(b, front[i]);
        }
      }
      if Within(b, last) {
        assert first <= last.from by { StartsAfter(ws, first, span); }
      }
    }
  }

  lemma {:induction false} StartsAfter(ws: seq<Window>, first: nat, span: nat)
    requires Contiguous(ws, first, span)
    ensures first <= Next(ws, first)
    ensures ws != [] ==> first <= ws[|ws| - 1].from
  {
    if ws != [] {
      assert ws[0].from == first && ws[|ws| - 1].from <= ws[|ws| - 1].to;
      if |ws| > 1 {
        ContiguousAscends(ws, first, span, 0, |ws| - 1);
      }
    }
  }

  /** The blocks from the configured start to the checkpoint are each in exactly one committed range, all others in none. */
  lemma CoveredExactlyOnce(ws: seq<Window>, first: nat, span: nat, b: nat)
    requires Contiguous(ws, first, span)
    ensures first <= b < Next(ws, first) <==> exists i :: 0 <= i < |ws| && Within(b, ws[i])
    ensures forall i, j :: 0 <= i < |ws| && 0 <= j < |ws| && Within(b, ws[i]) && Within(b, ws[j]) ==> i == j
  {
    CoveringWindow(ws, first, span, b);
    forall i, j | 0 <= i < j < |ws|
      ensures ws[i].to < ws[j].from
    {
      ContiguousAscends(ws, first, span, i, j);
    }
  }

  /** Committing more ranges never moves the checkpoint back. */
  lemma {:induction false} NeverBack(ws: seq<Window>, more: seq<Window>, first: nat, span: nat)
    requires Contiguous(more, first, span) && ws <= more
    ensures Next(ws, first) <= Next(more, first)
    ensures |ws| < |more| ==> Next(ws, first) < Next(more, first)
    decreases |more|
  {
    if |ws| < |more| {
      var front := more[..|more| - 1];
      assert Contiguous(front, first, span);
      NeverBack(ws, front, first, span);
      assert more[|more| - 1].from == Next(front, first);
    }
  }

  // ----- the past explains the database

  predicate Checkpointed(ws: seq<Window>, lastBlock: Option<int>) {
    if ws == [] then lastBlock == None || lastBlock == Some(0) else lastBlock == Some(ws[|ws| - 1].to)
  }

  predicate Explains(chain: seq<Block>, first: nat, span: nat, past: Past, lastBlock: Option<int>, tables: Tables) {
    var s := Stream(chain, first);
    Contiguous(past.windows, first, span) && Checkpointed(past.windows, lastBlock) &&
    ValidRun(past.run, |s|) && Cursor(past.run) == Pos(chain, first, Next(past.windows, first)) &&
    LogsOf(past.handled) == Word(s, past.run) && FoldLogs(past.handled) == tables && ViolationFree(LogsOf(past.handled))
  }

  lemma ExplainsNothing(chain: seq<Block>, first: nat, span: nat, lastBlock: Option<int>)
    requires lastBlock == None || lastBlock == Some(0)
    ensures Explains(chain, first, span, NOTHING, lastBlock, EMPTY)
  {
  }

  // ----- a pass, log by log

  lemma AttemptAdds(s: seq<Log>, run: seq<Attempt>, a: Attempt)
    requires ValidRun(run, |s|) && Cursor(run) <= a.reach <= |s|
    ensures var run' := run + [a];
            ValidRun(run', |s|) && Cursor(run') == (if a.committed then a.reach else Cursor(run)) &&
            Word(s, run') == Word(s, run) + s[Cursor(run)..a.reach]
    ensures Farthest(run + [a]) == if a.reach < Farthest(run) then Farthest(run) else a.reach
  {
    assert (run + [a])[..|run|] == run;
  }

  /** A pass that has got to `reach` handles one more log. */
  lemma AttemptGrows(s: seq<Log>, run: seq<Attempt>, reach: nat)
    requires ValidRun(run, |s|) && Cursor(run) <= reach < |s|
    ensures ValidRun(run + [Attempt(reach, false)], |s|) && ValidRun(run + [Attempt(reach + 1, false)], |s|)
    ensures Word(s, run + [Attempt(reach + 1, false)]) == Word(s, run + [Attempt(reach, false)]) + [s[reach]]
  {
    hide Word, ValidRun, Cursor, Farthest;
    AttemptAdds(s, run, Attempt(reach, false));
    AttemptAdds(s, run, Attempt(reach + 1, false));
    assert s[Cursor(run)..reach + 1] == s[Cursor(run)..reach] + [s[reach]];
  }

  /** The pass under way: started from the cursor, it has handled the stream up to `reach`. */
  predicate UnderWay(chain: seq<Block>, first: nat, span: nat, before: seq<Attempt>, reach: nat, past: Past,
                     lastBlock: Option<int>, tables: Tables)
  {
    Explains(chain, first, span, past, lastBlock, tables) &&
    past.run == before + [Attempt(reach, false)] &&
    ValidRun(before, |Stream(chain, first)|) && Cursor(before) <= reach <= |Stream(chain, first)|
  }

  lemma BeginPass(chain: seq<Block>, first: nat, span: nat, past: Past, lastBlock: Option<int>, tables: Tables)
    requires Explains(chain, first, span, past, lastBlock, tables)
    ensures var c := Cursor(past.run);
            UnderWay(chain, first, span, past.run, c, past.(run := past.run + [Attempt(c, false)]), lastBlock, tables)
  {
    hide Word, ValidRun, Cursor, Farthest, Stream, Pos, FoldLogs, ViolationFree, LogsOf, Contiguous, Checkpointed, Next;
    var s := Stream(chain, first);
    CursorBound(past.run, |s|);
    AttemptAdds(s, past.run, Attempt(Cursor(past.run), false));
  }

  /** The logs of the next range, from the cursor on, in the stream. */
  lemma NextRange(chain: seq<Block>, first: nat, span: nat, past: Past, lastBlock: Option<int>, tables: Tables, upper: nat)
    requires Explains(chain, first, span, past, lastBlock, tables) && Next(past.windows, first) <= upper
    ensures var logs, s, start := LogsIn(chain, Next(past.windows, first), upper + 1), Stream(chain, first), Cursor(past.run);
            start + |logs| == Pos(chain, first, upper + 1) <= |s| && forall k :: 0 <= k < |logs| ==> logs[k] == s[start + k]
  {
    hide LogsIn, Stream, Cursor, Word, ValidRun, FoldLogs, ViolationFree, LogsOf, Contiguous, Checkpointed, Next;
    StartsAfter(past.windows, first, span);
    RangeIsSegment(chain, first, Next(past.windows, first), upper + 1);
  }

  lemma UnderWayExplains(chain: seq<Block>, first: nat, span: nat, before: seq<Attempt>, reach: nat, past: Past,
                         lastBlock: Option<int>, tables: Tables)
    requires UnderWay(chain, first, span, before, reach, past, lastBlock, tables)
    ensures Explains(chain, first, span, past, lastBlock, tables) && past.run == before + [Attempt(reach, false)]
  {
  }

  lemma HandledAdds(handled: seq<Handled>, log: Log, now: int)
    ensures LogsOf(handled + [Handled(log, now)]) == LogsOf(handled) + [log]
    ensures FoldLogs(handled + [Handled(log, now)]) == Step(log, now, FoldLogs(handled))
  {
    assert (handled + [Handled(log, now)])[..|handled|] == handled;
    hide Step;
  }

  lemma ViolationFreeAdds(w: seq<Log>, log: Log)
    requires ViolationFree(w) && !Violates(log, Clean(w))
    ensures ViolationFree(w + [log])
  {
    assert (w + [log])[..|w|] == w;
    hide Violates, Clean;
  }

  lemma ContinuePass(chain: seq<Block>, first: nat, span: nat, before: seq<Attempt>, reach: nat, past: Past,
                     lastBlock: Option<int>, tables: Tables, now: int)
    requires UnderWay(chain, first, span, before, reach, past, lastBlock, tables)
    requires reach < |Stream(chain, first)| && !Violates(Stream(chain, first)[reach], tables)
    ensures var log := Stream(chain, first)[reach];
            UnderWay(chain, first, span, before, reach + 1,
                     past.(run := before + [Attempt(reach + 1, false)], handled := past.handled + [Handled(log, now)]),
                     lastBlock, Step(log, now, tables))
  {
    hide Word, ValidRun, Cursor, Farthest, Stream, Pos, FoldLogs, ViolationFree, LogsOf, Step, Violates, Clean, Contiguous,
      Checkpointed, Next;
    var s := Stream(chain, first);
    AttemptGrows(s, before, reach);
    AttemptAdds(s, before, Attempt(reach, false));
    AttemptAdds(s, before, Attempt(reach + 1, false));
    HandledAdds(past.handled, s[reach], now);
    ViolatesErased(s[reach], past.handled);
    ViolationFreeAdds(LogsOf(past.handled), s[reach]);
  }

  lemma ContiguousAdds(ws: seq<Window>, first: nat, span: nat, w: Window)
    requires Contiguous(ws, first, span) && w.from == Next(ws, first) && w.from <= w.to <= w.from + span
    ensures Contiguous(ws + [w], first, span) && Next(ws + [w], first) == w.to + 1
  {
  }

  lemma CommitPass(chain: seq<Block>, first: nat, span: nat, before: seq<Attempt>, past: Past,
                   lastBlock: Option<int>, tables: Tables, upper: nat)
    requires var n := Next(past.windows, first);
             n <= upper <= n + span &&
             UnderWay(chain, first, span, before, Pos(chain, first, upper + 1), past, lastBlock, tables)
    ensures Explains(chain, first, span,
                     Past(past.windows + [Window(Next(past.windows, first), upper)],
                          before + [Attempt(Pos(chain, first, upper + 1), true)], past.handled),
                     Some(upper), tables)
  {
    hide Word, ValidRun, Cursor, Farthest, Stream, Pos, FoldLogs, ViolationFree, LogsOf, Contiguous, Next;
    var s, reach := Stream(chain, first), Pos(chain, first, upper + 1);
    AttemptAdds(s, before, Attempt(reach, false));
    AttemptAdds(s, before, Attempt(reach, true));
    ContiguousAdds(past.windows, first, span, Window(Next(past.windows, first), upper));
  }

  /** With fresh hashes the next log of a pass never fails on a constraint. */
  lemma FreshPass(chain: seq<Block>, first: nat, span: nat, before: seq<Attempt>, reach: nat, past: Past,
                  lastBlock: Option<int>, tables: Tables)
    requires UnderWay(chain, first, span, before, reach, past, lastBlock, tables) && reach < |Stream(chain, first)|
    requires UniqueProvenance(Stream(chain, first)) && FreshHashes(Stream(chain, first))
    ensures !Violates(Stream(chain, first)[reach], tables)
  {
    var s := Stream(chain, first);
    WordFromStream(s, past.run);
    hide Word, ValidRun, Cursor, Stream, Pos, FoldLogs, ViolationFree, LogsOf, Contiguous, UniqueProvenance,
      FreshHashes, Violates;
    var w := LogsOf(past.handled);
    assert forall l :: l in w + [s[reach]] ==> l in s;
    SubLogs(s, w + [s[reach]]);
    NoViolationStep(w, s[reach]);
    ViolatesErased(s[reach], past.handled);
  }

  // ----- with heads that never move back, every checkpoint is where the farthest pass got to

  /** At every commit the pass got at least as far as any before it. */
  predicate Settled(run: seq<Attempt>) {
    forall i :: 0 <= i < |run| && run[i].committed ==> Farthest(run[..i + 1]) == run[i].reach
  }

  /** No pass has been beyond the range that would be tried next with `top` as the head. */
  predicate Snug(chain: seq<Block>, first: nat, span: nat, past: Past, top: nat) {
    Settled(past.run) &&
    Farthest(past.run) <= Pos(chain, first, Least(Next(past.windows, first) + span, top) + 1)
  }

  function Least(a: nat, b: nat): nat {
    if a < b then a else b
  }

  lemma PosMonotone(chain: seq<Block>, first: nat, a: nat, b: nat)
    requires a <= b
    ensures Pos(chain, first, a) <= Pos(chain, first, b)
  {
    if first <= a {
      RangeIsSegment(chain, first, a, b);
    }
  }

  lemma FarthestAdds(run: seq<Attempt>, a: Attempt)
    ensures Farthest(run + [a]) == if a.reach < Farthest(run) then Farthest(run) else a.reach
  {
    assert (run + [a])[..|run|] == run;
  }

  lemma SettledAdds(run: seq<Attempt>, a: Attempt)
    requires Settled(run) && (a.committed ==> Farthest(run) <= a.reach)
    ensures Settled(run + [a])
  {
    var run' := run + [a];
    forall i | 0 <= i < |run'| && run'[i].committed
      ensures Farthest(run'[..i + 1]) == run'[i].reach
    {
      if i < |run| {
        assert run'[..i + 1] == run[..i + 1];
      } else {
        assert run'[..i + 1] == run' && run'[..i] == run;
      }
    }
  }

  /** What a pass over the next range keeps, whether it commits or not. */
  lemma SnugAdds(chain: seq<Block>, first: nat, span: nat, past: Past, past': Past, a: Attempt, upper: nat, top: nat)
    requires Snug(chain, first, span, past, top) && top >= upper
    requires var n := Next(past.windows, first); upper == Least(n + span, top) && n <= upper
    requires past'.run == past.run + [a] && a.reach <= Pos(chain, first, upper + 1)
    requires past'.windows == if a.committed then past.windows + [Window(Next(past.windows, first), upper)] else past.windows
    requires a.committed ==> a.reach == Pos(chain, first, upper + 1)
    ensures Snug(chain, first, span, past', top)
  {
    hide Pos, Settled, Farthest;
    SettledAdds(past.run, a);
    FarthestAdds(past.run, a);
    PosMonotone(chain, first, upper + 1, Least(upper + 1 + span, top) + 1);
  }

  lemma SnugWithHigherHead(chain: seq<Block>, first: nat, span: nat, past: Past, top: nat, head: nat)
    requires Snug(chain, first, span, past, top) && top <= head
    ensures Snug(chain, first, span, past, head)
  {
    var n := Next(past.windows, first) + span;
    PosMonotone(chain, first, Least(n, top) + 1, Least(n, head) + 1);
    hide Pos, Settled;
  }

  /** Caught up with the head, the cursor is where the farthest pass got to. */
  lemma CaughtUp(chain: seq<Block>, first: nat, span: nat, past: Past, lastBlock: Option<int>, tables: Tables, top: nat)
    requires Explains(chain, first, span, past, lastBlock, tables) && Snug(chain, first, span, past, top)
    requires top < Next(past.windows, first)
    ensures Farthest(past.run) == Cursor(past.run)
  {
    hide Pos, Settled, Farthest, Cursor, Stream, Word, ValidRun, FoldLogs, ViolationFree, LogsOf, Contiguous, Checkpointed;
    CursorBound(past.run, |Stream(chain, first)|);
    PosMonotone(chain, first, Least(Next(past.windows, first) + span, top) + 1, Next(past.windows, first));
  }

  /** Right after any commit, the cursor is where the farthest pass got to. */
  lemma JustCommitted(run: seq<Attempt>)
    requires Settled(run) && run != [] && run[|run| - 1].committed
    ensures Farthest(run) == Cursor(run)
  {
    assert run[..|run|] == run;
  }

  // ----- what an explained database means

  /**
   Caught up after any failures, the tables are those of one uninterrupted pass over the logs
   up to the checkpoint, created_at aside.
   */
  lemma TablesAtCheckpoint(chain: seq<Block>, first: nat, span: nat, past: Past, lastBlock: Option<int>, tables: Tables,
                           once: seq<Handled>)
    requires Explains(chain, first, span, past, lastBlock, tables) && Farthest(past.run) == Cursor(past.run)
    requires CreatedFirst(Stream(chain, first)) && LogsOf(once) == LogsIn(chain, first, Next(past.windows, first))
    ensures SameButIntents(tables, FoldLogs(once))
  {
    CheckpointPrefix(chain, first, span, past, lastBlock, tables);
    hide SameButIntents, Word, ValidRun, Cursor, Farthest, Stream, Pos, FoldLogs, ViolationFree, LogsOf, Contiguous, CreatedFirst;
    CrashesLeaveNoTrace(Stream(chain, first), past.run, past.handled, once);
  }

  lemma CheckpointPrefix(chain: seq<Block>, first: nat, span: nat, past: Past, lastBlock: Option<int>, tables: Tables)
    requires Explains(chain, first, span, past, lastBlock, tables)
    ensures var s, c := Stream(chain, first), Cursor(past.run);
            c <= |s| && s[..c] == LogsIn(chain, first, Next(past.windows, first))
  {
    var n := Next(past.windows, first);
    StartsAfter(past.windows, first, span);
    RangeIsSegment(chain, first, first, n);
    BackwardsEmpty(chain, first);
    assert Pos(chain, first, first) == 0;
  }

  /** The same for the intents. */
  lemma IntentsAtCheckpoint(chain: seq<Block>, first: nat, span: nat, past: Past, lastBlock: Option<int>, tables: Tables,
                            owner: nat, h: nat)
    requires Explains(chain, first, span, past, lastBlock, tables) && Farthest(past.run) == Cursor(past.run)
    requires UniqueProvenance(Stream(chain, first)) && FreshHashes(Stream(chain, first))
    ensures IsActive(tables.intents, owner, h) <==>
            ChainIntent(LogsIn(chain, first, Next(past.windows, first)), owner) == Some(h) &&
            LatestHandledOnce(LogsOf(past.handled), owner)
  {
    CheckpointPrefix(chain, first, span, past, lastBlock, tables);
    hide IsActive, Word, ValidRun, Cursor, Farthest, Stream, Pos, FoldLogs, ViolationFree, LogsOf, Contiguous,
      UniqueProvenance, FreshHashes, ChainIntent;
    IntentsAfterCrashes(Stream(chain, first), past.run, past.handled, owner, h);
  }

  /** No checkpoint ever passes the second commit of an intent hash. */
  lemma CheckpointIsFresh(chain: seq<Block>, first: nat, span: nat, past: Past, lastBlock: Option<int>, tables: Tables)
    requires Explains(chain, first, span, past, lastBlock, tables) && UniqueProvenance(Stream(chain, first))
    ensures FreshHashes(LogsIn(chain, first, Next(past.windows, first)))
  {
    CheckpointPrefix(chain, first, span, past, lastBlock, tables);
    var s, w := Stream(chain, first), LogsOf(past.handled);
    WordFromStream(s, past.run);
    SubLogs(s, w);
    ViolationFreeIsFresh(w);
    hide Stream, Pos, FoldLogs, ViolationFree, LogsOf, Contiguous, UniqueProvenance, FreshHashes, Word, ValidRun, Cursor;
    var c := Cursor(past.run);
    forall l | l in s[..c]
      ensures l in w
    {
      var i :| 0 <= i < c && s[..c][i] == l;
      WordCovers(s, past.run, i);
    }
    SubLogs(w, s[..c]);
  }
}
