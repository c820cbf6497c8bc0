/**
 services/infra/src/indexer/poller.ts: the log poller, its checkpoint and its timestamp
 cache. Any query, statement or notification may fail at any point, unless a call is told
 that everything outside is `reliable`; the chain does not change, and its head is what each
 poll is told.
 */
module Poller {
  import opened Replay
  import opened IndexerTables
  import opened IndexerRuns
  import opened IntentRuns
  import opened Indexable
  import opened ChainBlocks
  import opened PollerHistory

  const MAX_CACHED := 1024

  /** Keys in insertion order, each once, exactly those of the map. */
  ghost predicate InsertionOrder(order: seq<nat>, cache: map<nat, nat>) {
    (forall i, j :: 0 <= i < j < |order| ==> order[i] != order[j]) && (forall b :: b in order <==> b in cache) &&
    |order| == |cache|
  }

  ghost predicate CacheAgrees(cache: map<nat, nat>, chain: seq<Block>) {
    forall b :: b in cache ==> b < |chain| && cache[b] == chain[b].timestamp
  }

  /** resolveStartBlock: after the checkpoint if it is positive, else as configured, else near the head. */
  function StartBlock(lastBlock: Option<int>, envStart: Option<int>, deploymentStart: Option<int>, head: nat): int {
    if lastBlock.Some? && lastBlock.value > 0 then lastBlock.value + 1
    else if envStart.Some? then envStart.value
    else if deploymentStart.Some? then deploymentStart.value
    else if head > 1000 then head - 1000
    else 0
  }

  /** A checkpoint is resumed from exactly when it is positive or a first run would start right after it anyway. */
  lemma ResumesIff(u: nat, envStart: Option<int>, deploymentStart: Option<int>, head: nat)
    ensures StartBlock(Some(u), envStart, deploymentStart, head) == u + 1 <==>
            u > 0 || StartBlock(None, envStart, deploymentStart, head) == 1
  {
  }

  /**
   Without a positive checkpoint the environment decides before the deployment; with neither,
   indexing starts a thousand blocks behind the head, or at the first block of a shorter chain.
   */
  lemma FirstRunStart(lastBlock: Option<int>, envStart: Option<int>, deploymentStart: Option<int>, head: nat)
    requires lastBlock.Some? ==> lastBlock.value <= 0
    ensures var start := StartBlock(lastBlock, envStart, deploymentStart, head);
            (forall b: int :: envStart == Some(b) ==> start == b == Configured(envStart, deploymentStart)) &&
            (forall b: int :: envStart == None && deploymentStart == Some(b) ==>
               start == b == Configured(envStart, deploymentStart)) &&
            (envStart == None && deploymentStart == None ==>
               0 <= start <= head && head - start <= 1000 && (start == 0 || head - start == 1000))
  {
  }

  function Configured(envStart: Option<int>, deploymentStart: Option<int>): int {
    if envStart.Some? then envStart.value else if deploymentStart.Some? then deploymentStart.value else 0
  }

  /** With a positive configured start, indexing resumes exactly where the committed ranges end. */
  lemma ResumesAtNext(chain: seq<Block>, span: nat, past: Past, lastBlock: Option<int>, tables: Tables,
                      envStart: Option<int>, deploymentStart: Option<int>, head: nat)
    requires var first := Configured(envStart, deploymentStart);
             first >= 1 && Explains(chain, first, span, past, lastBlock, tables)
    ensures StartBlock(lastBlock, envStart, deploymentStart, head) ==
            Next(past.windows, Configured(envStart, deploymentStart))
  {
    StartsAfter(past.windows, Configured(envStart, deploymentStart), span);
    hide LogsIn, Word, ValidRun, Cursor, Pos, FoldLogs, ViolationFree, LogsOf;
  }

  lemma InsertedOrder(order: seq<nat>, cache: map<nat, nat>, b: nat, timestamp: nat)
    requires InsertionOrder(order, cache) && b !in cache
    ensures InsertionOrder(order + [b], cache[b := timestamp]) && |cache[b := timestamp]| == |cache| + 1
  {
    var cache' := cache[b := timestamp];
    assert cache'.Keys == cache.Keys + {b};
    assert |cache'| == |cache| + 1;
    assert b !in order;
  }

  lemma Inserted(order: seq<nat>, cache: map<nat, nat>, chain: seq<Block>, b: nat)
    requires InsertionOrder(order, cache) && CacheAgrees(cache, chain) && b !in cache && b < |chain|
    ensures var cache' := cache[b := chain[b].timestamp];
            InsertionOrder(order + [b], cache') && CacheAgrees(cache', chain) && |cache'| == |cache| + 1
  {
    hide InsertionOrder;
    InsertedOrder(order, cache, b, chain[b].timestamp);
  }

  lemma Cached(cache: map<nat, nat>, chain: seq<Block>, b: nat)
    requires CacheAgrees(cache, chain) && b in cache
    ensures b < |chain| && cache[b] == chain[b].timestamp
  {
  }

  lemma SameSize(order: seq<nat>, cache: map<nat, nat>)
    requires InsertionOrder(order, cache)
    ensures |order| == |cache|
  {
  }

  lemma Evicted(order: seq<nat>, cache: map<nat, nat>, chain: seq<Block>)
    requires InsertionOrder(order, cache) && CacheAgrees(cache, chain) && cache != map[]
    ensures order != [] &&
            var rest := cache - {order[0]};
            InsertionOrder(order[1..], rest) && CacheAgrees(rest, chain) && |rest| == |cache| - 1
  {
    assert |cache| == |cache.Keys| > 0;
    var rest := cache - {order[0]};
    assert rest.Keys == cache.Keys - {order[0]};
    assert |rest| == |rest.Keys|;
    forall b
      ensures b in order[1..] <==> b in rest
    {
      assert b in order <==> b == order[0] || b in order[1..];
    }
  }

  /** Whether something outside fails now: it may, unless everything is reliable. */
  method Outage(reliable: bool) returns (down: bool)
    ensures reliable ==> !down
  {
    down := *;
    down := down && !reliable;
  }

  class IndexerPoller {
    const envStart: Option<int>
    const deploymentStart: Option<int>
    const batchBlocks: nat
    const chain: seq<Block>
    const db: Db
    var cache: map<nat, nat>
    /** The order the cache's entries were inserted in. */
    var order: seq<nat>
    ghost var past: Past
    /** The highest head a poll was told. */
    ghost var top: nat

    /** The configured start, if there is one. */
    ghost function First(): int {
      Configured(envStart, deploymentStart)
    }

    ghost predicate CacheValid()
      reads this
    {
      CacheAgrees(cache, chain) && InsertionOrder(order, cache) && |cache| <= MAX_CACHED
    }

    ghost predicate Valid()
      reads this, db
    {
      First() >= 1 && batchBlocks >= 1 && Stamped(chain) && CacheValid() &&
      Explains(chain, First(), batchBlocks, past, db.lastBlock, db.Contents())
    }

    /** The first block not yet committed. */
    ghost function NextBlock(): nat
      requires First() >= 1
      reads this
    {
      Next(past.windows, First())
    }

    ghost predicate Fresh()
      requires First() >= 1
      reads this
    {
      UniqueProvenance(Stream(chain, First())) && FreshHashes(Stream(chain, First()))
    }

    ghost predicate IsSnug()
      requires First() >= 1
      reads this
    {
      Snug(chain, First(), batchBlocks, past, top)
    }

    /** The tables but the intents are those of any single pass over the logs up to the checkpoint. */
    ghost predicate OnePass()
      requires First() >= 1
      reads this, db
    {
      forall once :: LogsOf(once) == LogsIn(chain, First(), NextBlock()) ==> SameButIntents(db.Contents(), FoldLogs(once))
    }

    /** An intent is active exactly when it is the chain's current one at the checkpoint and was handled once. */
    ghost predicate IntentsCurrent()
      requires First() >= 1
      reads this, db
    {
      forall owner: nat, h: nat :: IsActive(db.intents, owner, h) <==>
        ChainIntent(LogsIn(chain, First(), NextBlock()), owner) == Some(h) && LatestHandledOnce(LogsOf(past.handled), owner)
    }

    /** With heads that have not moved back, what a database that has caught up holds. */
    lemma CaughtUpTables()
      requires Valid() && IsSnug() && top < NextBlock()
      ensures CreatedFirst(Stream(chain, First())) ==> OnePass()
      ensures Fresh() ==> IntentsCurrent()
    {
      hide Explains, Snug, CreatedFirst, UniqueProvenance, FreshHashes, SameButIntents, IsActive, ChainIntent, LogsOf,
        LatestHandledOnce, FoldLogs, LogsIn, Stream, Cursor, Farthest, Next;
      CaughtUp(chain, First(), batchBlocks, past, db.lastBlock, db.Contents(), top);
      if CreatedFirst(Stream(chain, First())) {
        forall once | LogsOf(once) == LogsIn(chain, First(), NextBlock())
          ensures SameButIntents(db.Contents(), FoldLogs(once))
        {
          TablesAtCheckpoint(chain, First(), batchBlocks, past, db.lastBlock, db.Contents(), once);
        }
      }
      if Fresh() {
        forall owner: nat, h: nat
          ensures IsActive(db.intents, owner, h) <==>
                  ChainIntent(LogsIn(chain, First(), NextBlock()), owner) == Some(h) &&
                  LatestHandledOnce(LogsOf(past.handled), owner)
        {
          IntentsAtCheckpoint(chain, First(), batchBlocks, past, db.lastBlock, db.Contents(), owner, h);
        }
      }
    }

    constructor (envStart: Option<int>, deploymentStart: Option<int>, batchBlocks: nat, chain: seq<Block>, db: Db)
      requires batchBlocks >= 1 && Stamped(chain)
      requires db.Contents() == EMPTY && db.lastBlock == None
      ensures this.envStart == envStart && this.deploymentStart == deploymentStart
      ensures this.batchBlocks == batchBlocks && this.chain == chain && this.db == db
      ensures CacheValid() && past == NOTHING && top == 0
      ensures First() >= 1 ==> Valid() && IsSnug()
    {
      this.envStart, this.deploymentStart, this.batchBlocks := envStart, deploymentStart, batchBlocks;
      this.chain, this.db := chain, db;
      cache, order, past, top := map[], [], NOTHING, 0;
      new;
      if First() >= 1 {
        ExplainsNothing(chain, First(), batchBlocks, db.lastBlock);
      }
    }

    /** getBlockTimestamp; None when the block query fails. */
    method GetBlockTimestamp(b: nat, reliable: bool) returns (r: Option<nat>)
      requires CacheValid() && b < |chain|
      modifies this`cache, this`order
      ensures CacheValid()
      ensures r.Some? ==> r.value == chain[b].timestamp
      ensures reliable || b in old(cache) ==> r.Some?
      ensures order ==
              if b in old(cache) || r.None? then old(order)
              else if |old(order)| < MAX_CACHED then old(order) + [b]
              else old(order)[1..] + [b]
    {
      hide InsertionOrder, CacheAgrees;
      if b in cache {
        Cached(cache, chain, b);
        return Some(cache[b]);
      }
      var down := Outage(reliable);
      if down {
        return None;
      }
      Remember(b);
      return Some(chain[b].timestamp);
    }

    /** Caches a block's timestamp; beyond 1024 entries the oldest one goes. */
    method Remember(b: nat)
      requires CacheValid() && b < |chain| && b !in cache
      modifies this`cache, this`order
      ensures CacheValid()
      ensures order == if |old(order)| < MAX_CACHED then old(order) + [b] else old(order)[1..] + [b]
    {
      hide InsertionOrder, CacheAgrees;
      Inserted(order, cache, chain, b);
      SameSize(order, cache);
      cache := cache[b := chain[b].timestamp];
      order := order + [b];
      if |cache| > MAX_CACHED {
        Evicted(order, cache, chain);
        cache := cache - {order[0]};
        order := order[1..];
      }
    }

    /** resolveStartBlock */
    method ResolveStartBlock(head: nat) returns (start: int)
      ensures start == StartBlock(db.lastBlock, envStart, deploymentStart, head)
    {
      if db.lastBlock.Some? {
        var lastNum := db.lastBlock.value;
        if lastNum > 0 {
          return lastNum + 1;
        }
      }
      if envStart.Some? {
        return envStart.value;
      }
      if deploymentStart.Some? {
        return deploymentStart.value;
      }
      if head > 1000 {
        return head - 1000;
      }
      return 0;
    }

    /**
     One iteration of indexRange: fetch the range's logs, handle them in order, set the
     checkpoint. `ok` is false when something fails.
     */
    method IndexBatch(cursor: nat, upper: nat, reliable: bool) returns (ok: bool)
      requires Valid() && cursor == NextBlock() && cursor <= upper <= cursor + batchBlocks
      modifies this`cache, this`order, this`past, db
      ensures Valid()
      ensures past.windows == if ok then old(past.windows) + [Window(cursor, upper)] else old(past.windows)
      ensures Fresh() && reliable ==> ok
      ensures upper == Least(cursor + batchBlocks, top) && old(IsSnug()) ==> IsSnug()
    {
      hide Explains, LogsIn, Pos, Stream, Snug, Step, Violates, UniqueProvenance, FreshHashes, ValidRun, Cursor, Stamped,
        InsertionOrder, CacheAgrees, UnderWay, Contiguous, Farthest;
      ghost var first := First();
      var down := Outage(reliable);
      if down {
        return false;
      }
      var logs := LogsIn(chain, cursor, upper + 1);
      ghost var past0, start, s := past, Cursor(past.run), Stream(chain, first);
      NextRange(chain, first, batchBlocks, past, db.lastBlock, db.Contents(), upper);
      BeginPass(chain, first, batchBlocks, past, db.lastBlock, db.Contents());
      past := past.(run := past0.run + [Attempt(start, false)]);
      for k := 0 to |logs|
        invariant CacheValid() && past.windows == past0.windows && db.lastBlock == old(db.lastBlock)
        invariant UnderWay(chain, first, batchBlocks, past0.run, start + k, past, db.lastBlock, db.Contents())
      {
        RangeStamped(chain, cursor, upper + 1, k);
        var done := HandleNext(logs[k], past0.run, start + k, reliable);
        if !done {
          UnderWayExplains(chain, first, batchBlocks, past0.run, start + k, past, db.lastBlock, db.Contents());
          SnugDuring(past0, past, Attempt(start + k, false), upper);
          return false;
        }
      }
      UnderWayExplains(chain, first, batchBlocks, past0.run, start + |logs|, past, db.lastBlock, db.Contents());
      SnugDuring(past0, past, Attempt(start + |logs|, false), upper);
      down := Outage(reliable);
      if down {
        return false;
      }
      CommitPass(chain, first, batchBlocks, past0.run, past, db.lastBlock, db.Contents(), upper);
      db.lastBlock := Some(upper);
      past := Past(past0.windows + [Window(cursor, upper)], past0.run + [Attempt(start + |logs|, true)], past.handled);
      SnugDuring(past0, past, Attempt(start + |logs|, true), upper);
      return true;
    }

    /** handleLog with the poller's timestamp lookup. */
    method StampAndHandle(log: Log, now: int, reliable: bool) returns (ok: bool)
      requires CacheValid() && log.block < |chain| && log.blockTimestamp == chain[log.block].timestamp
      modifies this`cache, this`order, db
      ensures CacheValid() && db.lastBlock == old(db.lastBlock)
      ensures db.Contents() == if ok then Step(log, now, old(db.Contents())) else old(db.Contents())
      ensures ok ==> !Violates(log, old(db.Contents()))
      ensures reliable && !ok ==> Violates(log, old(db.Contents()))
    {
      var stamped := log;
      if !log.event.Undecodable? {
        var ts := GetBlockTimestamp(log.block, reliable);
        if ts.None? {
          return false;
        }
        stamped := log.(blockTimestamp := ts.value);
      }
      hide Step, Violates, InsertionOrder, CacheAgrees;
      var done, known := db.HandleLog(stamped, now);
      return done;
    }

    /** The pass under way handles its next log, or fails. */
    method HandleNext(log: Log, ghost before: seq<Attempt>, ghost reach: nat, reliable: bool) returns (ok: bool)
      requires First() >= 1 && CacheValid()
      requires UnderWay(chain, First(), batchBlocks, before, reach, past, db.lastBlock, db.Contents())
      requires reach < |Stream(chain, First())| && log == Stream(chain, First())[reach]
      requires log.block < |chain| && log.blockTimestamp == chain[log.block].timestamp
      modifies this`cache, this`order, this`past, db
      ensures CacheValid() && past.windows == old(past.windows) && db.lastBlock == old(db.lastBlock)
      ensures UnderWay(chain, First(), batchBlocks, before, if ok then reach + 1 else reach, past, db.lastBlock, db.Contents())
      ensures Fresh() && reliable ==> ok
    {
      hide InsertionOrder, CacheAgrees, UnderWay, Violates, Step, Stream, UniqueProvenance, FreshHashes;
      var down := Outage(reliable);
      if down {
        return false;
      }
      if Fresh() {
        FreshPass(chain, First(), batchBlocks, before, reach, past, db.lastBlock, db.Contents());
      }
      ghost var tables := db.Contents();
      var now: int := *;
      ok := StampAndHandle(log, now, reliable);
      if ok {
        ContinuePass(chain, First(), batchBlocks, before, reach, past, db.lastBlock, tables, now);
        past := past.(run := before + [Attempt(reach + 1, false)], handled := past.handled + [Handled(log, now)]);
      }
    }

    /** SnugAdds, in the poller's terms. */
    lemma SnugDuring(past0: Past, past1: Past, a: Attempt, upper: nat)
      requires First() >= 1 && past1.run == past0.run + [a] && a.reach <= Pos(chain, First(), upper + 1)
      requires var n := Next(past0.windows, First());
               n <= upper && past1.windows == if a.committed then past0.windows + [Window(n, upper)] else past0.windows
      requires a.committed ==> a.reach == Pos(chain, First(), upper + 1)
      ensures upper == Least(Next(past0.windows, First()) + batchBlocks, top) && Snug(chain, First(), batchBlocks, past0, top)
              ==> Snug(chain, First(), batchBlocks, past1, top)
    {
      hide Snug, Pos;
      if upper == Least(Next(past0.windows, First()) + batchBlocks, top) && Snug(chain, First(), batchBlocks, past0, top) {
        SnugAdds(chain, First(), batchBlocks, past0, past1, a, upper, top);
      }
    }

    /** A range of `batchBlocks` and one blocks, or fewer where the head comes first. */
    predicate FullRange(w: Window, toBlock: nat) {
      w.to <= toBlock && w.to - w.from <= batchBlocks && (w.to == toBlock || w.to - w.from == batchBlocks)
    }

    /** indexRange, from the next block to the head. */
    method IndexRange(fromBlock: nat, toBlock: nat, reliable: bool) returns (ok: bool)
      requires Valid() && fromBlock == NextBlock()
      modifies this`cache, this`order, this`past, db
      ensures Valid()
      ensures old(past.windows) <= past.windows && old(NextBlock()) <= NextBlock()
      ensures ok ==> NextBlock() > toBlock
      ensures NextBlock() <= toBlock + 1 || past.windows == old(past.windows)
      ensures forall i :: |old(past.windows)| <= i < |past.windows| ==> FullRange(past.windows[i], toBlock)
      ensures Fresh() && reliable ==> ok
      ensures toBlock == top && old(IsSnug()) ==> IsSnug()
    {
      hide Explains, Snug, UniqueProvenance, FreshHashes, Stamped, InsertionOrder, CacheAgrees, LogsIn, Stream;
      if fromBlock > toBlock {
        return true;
      }
      var cursor := fromBlock;
      while cursor <= toBlock
        invariant Valid() && old(past.windows) <= past.windows
        invariant old(NextBlock()) <= NextBlock() <= toBlock + 1
        invariant forall i :: |old(past.windows)| <= i < |past.windows| ==> FullRange(past.windows[i], toBlock)
        invariant if NextBlock() <= toBlock then cursor == NextBlock() else cursor > toBlock
        invariant toBlock == top && old(IsSnug()) ==> IsSnug()
        decreases toBlock + 1 - NextBlock()
      {
        var upper := if cursor + batchBlocks > toBlock then toBlock else cursor + batchBlocks;
        var done := IndexBatch(cursor, upper, reliable);
        if !done {
          return false;
        }
        cursor := cursor + batchBlocks + 1;
      }
      return true;
    }

    /** catchUp, when the head is `head`. */
    method CatchUp(head: nat, reliable: bool) returns (ok: bool)
      requires Valid()
      modifies this, db
      ensures Valid()
      ensures old(past.windows) <= past.windows && old(NextBlock()) <= NextBlock()
      ensures ok ==> NextBlock() > head
      ensures Fresh() && reliable ==> ok
      ensures old(top) <= head && old(IsSnug()) ==> IsSnug()
      ensures top == old(top) || top == head
      ensures ok && old(top) <= head && old(IsSnug()) && CreatedFirst(Stream(chain, First())) ==> OnePass()
      ensures ok && old(top) <= head && old(IsSnug()) && Fresh() ==> IntentsCurrent()
    {
      hide Explains, Snug, UniqueProvenance, FreshHashes, Stamped, InsertionOrder, CacheAgrees, LogsIn, StartBlock;
      var down := Outage(reliable);
      if down {
        return false;
      }
      var start := ResolveStartBlock(head);
      ResumesAtNext(chain, batchBlocks, past, db.lastBlock, db.Contents(), envStart, deploymentStart, head);
      if top <= head {
        if IsSnug() {
          SnugWithHigherHead(chain, First(), batchBlocks, past, top, head);
        }
        top := head;
      }
      ok := IndexRange(start, head, reliable);
      if ok && IsSnug() && top < NextBlock() {
        CaughtUpTables();
      }
    }

    /** A new process: the cache is empty again, the database as it was left. */
    method Restart()
      requires Valid()
      modifies this`cache, this`order
      ensures Valid()
    {
      cache, order := map[], [];
    }

    /** loop: one poll for each head, whatever fails; the process may be restarted in between. */
    method Loop(heads: seq<nat>)
      requires Valid()
      modifies this, db
      ensures Valid()
      ensures old(past.windows) <= past.windows && old(NextBlock()) <= NextBlock()
      ensures old(IsSnug()) && Ascending([old(top)] + heads) ==> IsSnug()
    {
      hide Explains, Snug, UniqueProvenance, FreshHashes, Stamped, InsertionOrder, CacheAgrees, LogsIn, Ascending;
      ghost var told := [top] + heads;
      for i := 0 to |heads|
        invariant Valid() && old(past.windows) <= past.windows && old(NextBlock()) <= NextBlock()
        invariant old(IsSnug()) && Ascending(told) ==> IsSnug() && top <= told[i]
      {
        assert told[i + 1] == heads[i];
        AscendsOnce(told, i);
        if * {
          Restart();
        }
        var reliable: bool := *;
        var ok := CatchUp(heads[i], reliable);
      }
    }

    /** reindexFromGenesis; the caller has emptied the tables. */
    method ReindexFromGenesis(head: nat, reliable: bool) returns (ok: bool)
      requires First() >= 1 && batchBlocks >= 1 && Stamped(chain) && CacheValid() && db.Contents() == EMPTY
      modifies this, db
      ensures (Valid() && IsSnug()) || (!ok && db.lastBlock == old(db.lastBlock) && db.Contents() == EMPTY)
      ensures ok ==> NextBlock() > head
      ensures Fresh() && reliable ==> ok
    {
      var down := Outage(reliable);
      if down {
        return false;
      }
      db.lastBlock := Some(0);
      past, top := NOTHING, 0;
      ExplainsNothing(chain, First(), batchBlocks, db.lastBlock);
      ok := CatchUp(head, reliable);
    }
  }

  predicate Ascending(heads: seq<nat>) {
    forall i, j :: 0 <= i < j < |heads| ==> heads[i] <= heads[j]
  }

  lemma AscendsOnce(heads: seq<nat>, i: nat)
    requires i + 1 < |heads|
    ensures Ascending(heads) ==> heads[i] <= heads[i + 1]
  {
  }
}
