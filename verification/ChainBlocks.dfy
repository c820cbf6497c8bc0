/**
 The chain as the indexer sees it, and block ranges as segments of the stream of its logs.
 */
module ChainBlocks {
  import opened IndexerTables

  datatype Block = Block(timestamp: nat, logs: seq<Log>)

  /** The logs of the blocks from `from` up to, not including, `to`, in order. */
  function LogsIn(chain: seq<Block>, from: nat, to: nat): seq<Log>
    decreases to
  {
    if to <= from then []
    else LogsIn(chain, from, to - 1) + (if to - 1 < |chain| then chain[to - 1].logs else [])
  }

  /** All logs from block `first` on. */
  function Stream(chain: seq<Block>, first: nat): seq<Log> {
    LogsIn(chain, first, |chain|)
  }

  /** How many logs of the stream come before block `b`. */
  function Pos(chain: seq<Block>, first: nat, b: nat): nat {
    |LogsIn(chain, first, b)|
  }

  /** Every log carries its block's number and timestamp. */
  predicate Stamped(chain: seq<Block>) {
    forall b, i :: 0 <= b < |chain| && 0 <= i < |chain[b].logs| ==>
      chain[b].logs[i].block == b && chain[b].logs[i].blockTimestamp == chain[b].timestamp
  }

  /** Block timestamps do not fall. */
  predicate RisingTimestamps(chain: seq<Block>) {
    forall a, b :: 0 <= a <= b < |chain| ==> chain[a].timestamp <= chain[b].timestamp
  }

  /** A range's logs come in the order of their blocks. */
  lemma {:induction false} RangeAscends(chain: seq<Block>, a: nat, b: nat, i: nat, j: nat)
    requires Stamped(chain) && i <= j < |LogsIn(chain, a, b)|
    ensures LogsIn(chain, a, b)[i].block <= LogsIn(chain, a, b)[j].block
    decreases b
  {
    var n := |LogsIn(chain, a, b - 1)|;
    if j < n {
      RangeAscends(chain, a, b - 1, i, j);
    } else {
      RangeStamped(chain, a, b, i);
      assert LogsIn(chain, a, b)[j] == chain[b - 1].logs[j - n];
    }
  }

  /** Adjacent ranges put together give the logs of the whole range. */
  lemma {:induction false} LogsInSplit(chain: seq<Block>, a: nat, b: nat, c: nat)
    requires a <= b <= c
    ensures LogsIn(chain, a, c) == LogsIn(chain, a, b) + LogsIn(chain, b, c)
    decreases c
  {
    if b < c {
      LogsInSplit(chain, a, b, c - 1);
    }
  }

  /** With the split: a range's logs are those of its blocks, one block after the other and nothing else. */
  lemma OneBlock(chain: seq<Block>, b: nat)
    ensures LogsIn(chain, b, b) == []
    ensures LogsIn(chain, b, b + 1) == if b < |chain| then chain[b].logs else []
  {
  }

  lemma {:induction false} NoLogsBeyond(chain: seq<Block>, a: nat, b: nat)
    requires |chain| <= a
    ensures LogsIn(chain, a, b) == []
    decreases b
  {
    if a < b {
      NoLogsBeyond(chain, a, b - 1);
    }
  }

  /** A block range's logs are the segment of the stream between its ends' positions. */
  lemma RangeIsSegment(chain: seq<Block>, first: nat, a: nat, b: nat)
    requires first <= a <= b
    ensures Pos(chain, first, a) <= Pos(chain, first, b) <= |Stream(chain, first)|
    ensures LogsIn(chain, a, b) == Stream(chain, first)[Pos(chain, first, a)..Pos(chain, first, b)]
  {
    hide LogsIn;
    LogsInSplit(chain, first, a, b);
    if b <= |chain| {
      LogsInSplit(chain, first, b, |chain|);
    } else if first <= |chain| {
      LogsInSplit(chain, first, |chain|, b);
      NoLogsBeyond(chain, |chain|, b);
    } else {
      NoLogsBeyond(chain, first, b);
      BackwardsEmpty(chain, first);
    }
  }

  lemma BackwardsEmpty(chain: seq<Block>, first: nat)
    ensures |chain| <= first ==> Stream(chain, first) == []
  {
  }

  lemma {:induction false} RangeStamped(chain: seq<Block>, a: nat, b: nat, i: nat)
    requires Stamped(chain) && i < |LogsIn(chain, a, b)|
    ensures var log := LogsIn(chain, a, b)[i];
            a <= log.block < b && log.block < |chain| && log.blockTimestamp == chain[log.block].timestamp
    decreases b
  {
    var n := |LogsIn(chain, a, b - 1)|;
    if i < n {
      RangeStamped(chain, a, b - 1, i);
    } else {
      assert LogsIn(chain, a, b)[i] == chain[b - 1].logs[i - n];
    }
  }
}
