/**
 GET /v1/feed of services/infra/src/api/feed.ts: entries from four listings, each cut by its
 query's LIMIT, sorted newest first and cut again. One clock reading serves a whole request.
 */
module Feed {
  import opened Replay
  import opened IndexerTables
  import opened Challengeable
  import opened NewestFirst
  import opened Listings

  datatype BlockedRow = BlockedRow(owner: Option<nat>, reasonCode: string, createdAt: int)

  datatype Body =
    | ReceiptBody(receiptId: nat, receipt: ReceiptCols, traceUri: Option<string>, challengeable: bool, windowEndsAt: int)
    | ChallengeBody(challengeId: nat, filed: FiledCols, resolved: ResolvedCols)
    | IntentBody(intentHash: nat, intent: IntentRow)
    | BlockedBody(blockedId: nat, blocked: BlockedRow)

  /** What a request reads; `found` gives the database's answers to findChallengeByReceipt. */
  datatype Reads = Reads(tables: Tables, blocked: map<nat, BlockedRow>, manifests: Manifests,
                         deployment: Option<Deployment>, now: int, found: nat -> Option<nat>)

  /** The keys of four listings: receipts, challenges, intents and blocked attempts. */
  datatype Rows = Rows(receipts: seq<nat>, challenges: seq<nat>, intents: seq<nat>, blocked: seq<nat>)

  predicate Listed(r: Reads, l: Rows) {
    (forall i :: 0 <= i < |l.receipts| ==> l.receipts[i] in r.tables.receipts) &&
    (forall i :: 0 <= i < |l.challenges| ==> l.challenges[i] in r.tables.challenges) &&
    (forall i :: 0 <= i < |l.intents| ==> l.intents[i] in r.tables.intents) &&
    (forall i :: 0 <= i < |l.blocked| ==> l.blocked[i] in r.blocked)
  }

  function ReceiptEntry(r: Reads, id: nat): Entry<Body>
    requires id in r.tables.receipts
  {
    var row := r.tables.receipts[id];
    var status := StatusOf(r.tables.challenges, r.found(id));
    Entry(row.main.ts,
          ReceiptBody(id, row.main, row.extra, FeedFlag(row.main, status, r.manifests, r.deployment, r.now),
                      row.main.ts + WindowSec(r.deployment)))
  }

  function ChallengeEntry(r: Reads, id: nat): Entry<Body>
    requires id in r.tables.challenges
  {
    var row := r.tables.challenges[id];
    Entry(if row.extra.resolvedAt.Some? then row.extra.resolvedAt.value else row.main.filedAt,
          ChallengeBody(id, row.main, row.extra))
  }

  function IntentEntry(r: Reads, hash: nat): Entry<Body>
    requires hash in r.tables.intents
  {
    Entry(r.tables.intents[hash].createdAt, IntentBody(hash, r.tables.intents[hash]))
  }

  function BlockedEntry(r: Reads, id: nat): Entry<Body>
    requires id in r.blocked
  {
    Entry(r.blocked[id].createdAt, BlockedBody(id, r.blocked[id]))
  }

  /** The entries of each listing, in its order. */
  function Sources(r: Reads, l: Rows): (s: seq<seq<Entry<Body>>>)
    requires Listed(r, l)
    ensures |s| == 4
  {
    [seq(|l.receipts|, i requires 0 <= i < |l.receipts| => ReceiptEntry(r, l.receipts[i])),
     seq(|l.challenges|, i requires 0 <= i < |l.challenges| => ChallengeEntry(r, l.challenges[i])),
     seq(|l.intents|, i requires 0 <= i < |l.intents| => IntentEntry(r, l.intents[i])),
     seq(|l.blocked|, i requires 0 <= i < |l.blocked| => BlockedEntry(r, l.blocked[i]))]
  }

  /** Each listing cut by its query's LIMIT. */
  function Limited(l: Rows, limit: nat): Rows {
    Rows(Cut(l.receipts, limit), Cut(l.challenges, limit), Cut(l.intents, limit), Cut(l.blocked, limit))
  }

  lemma ConcatFour<T>(s: seq<seq<T>>)
    requires |s| == 4
    ensures Concat(s) == s[0] + s[1] + s[2] + s[3]
  {
    assert s[1..][1..][1..][1..] == [];
    assert Concat(s[1..][1..][1..]) == s[3];
    assert Concat(s[1..][1..]) == s[2] + s[3];
    assert Concat(s[1..]) == s[1] + (s[2] + s[3]);
  }

  /** The handler, from what the four queries returned. */
  method ListFeed(r: Reads, l: Rows, limit: nat) returns (feed: seq<Entry<Body>>)
    requires Listed(r, l)
    ensures feed == Cut(Newest(Concat(Sources(r, l))), limit)
  {
    var entries: seq<Entry<Body>> := [];
    ghost var s := Sources(r, l);
    hide Sources, ReceiptEntry, ChallengeEntry, IntentEntry, BlockedEntry, Concat, Newest;
    ReceiptSource(r, l);
    for i := 0 to |l.receipts|
      invariant entries == s[0][..i]
    {
      entries := entries + [ReceiptEntry(r, l.receipts[i])];
    }
    ChallengeSource(r, l);
    for i := 0 to |l.challenges|
      invariant entries == s[0] + s[1][..i]
    {
      entries := entries + [ChallengeEntry(r, l.challenges[i])];
    }
    IntentSource(r, l);
    for i := 0 to |l.intents|
      invariant entries == s[0] + s[1] + s[2][..i]
    {
      entries := entries + [IntentEntry(r, l.intents[i])];
    }
    BlockedSource(r, l);
    for i := 0 to |l.blocked|
      invariant entries == s[0] + s[1] + s[2] + s[3][..i]
    {
      entries := entries + [BlockedEntry(r, l.blocked[i])];
    }
    ConcatFour(s);
    assert s[3][..|l.blocked|] == s[3];
    assert entries == Concat(s);
    entries := Newest(entries);
    feed := if |entries| <= limit then entries else entries[..limit];
  }

  lemma ReceiptSource(r: Reads, l: Rows)
    requires Listed(r, l)
    ensures var s := Sources(r, l)[0];
            |s| == |l.receipts| && forall i :: 0 <= i < |s| ==> s[i] == ReceiptEntry(r, l.receipts[i])
  {
  }

  lemma ChallengeSource(r: Reads, l: Rows)
    requires Listed(r, l)
    ensures var s := Sources(r, l)[1];
            |s| == |l.challenges| && forall i :: 0 <= i < |s| ==> s[i] == ChallengeEntry(r, l.challenges[i])
  {
  }

  lemma IntentSource(r: Reads, l: Rows)
    requires Listed(r, l)
    ensures var s := Sources(r, l)[2];
            |s| == |l.intents| && forall i :: 0 <= i < |s| ==> s[i] == IntentEntry(r, l.intents[i])
  {
  }

  lemma BlockedSource(r: Reads, l: Rows)
    requires Listed(r, l)
    ensures var s := Sources(r, l)[3];
            |s| == |l.blocked| && forall i :: 0 <= i < |s| ==> s[i] == BlockedEntry(r, l.blocked[i])
  {
  }

  lemma LimitedSources(r: Reads, l: Rows, limit: nat)
    requires Listed(r, l)
    ensures Listed(r, Limited(l, limit))
    ensures Sources(r, Limited(l, limit)) == CutEach(Sources(r, l), limit)
  {
    var m := Limited(l, limit);
    ReceiptSource(r, l);
    ReceiptSource(r, m);
    ChallengeSource(r, l);
    ChallengeSource(r, m);
    IntentSource(r, l);
    IntentSource(r, m);
    BlockedSource(r, l);
    BlockedSource(r, m);
    hide Sources, ReceiptEntry, ChallengeEntry, IntentEntry, BlockedEntry;
    var a, b := Sources(r, m), CutEach(Sources(r, l), limit);
    assert a[0] == b[0];
    assert a[1] == b[1];
    assert a[2] == b[2];
    assert a[3] == b[3];
  }

  /** The feed the handler serves, and the one made of everything. */
  function Served(r: Reads, l: Rows, limit: nat): seq<Entry<Body>>
    requires Listed(r, Limited(l, limit))
  {
    Cut(Newest(Concat(Sources(r, Limited(l, limit)))), limit)
  }

  function Complete(r: Reads, l: Rows, limit: nat): seq<Entry<Body>>
    requires Listed(r, l)
  {
    Cut(Newest(Concat(Sources(r, l))), limit)
  }

  /** When every listing is newest-first by its entries' timestamps, the limits of the queries do not show. */
  lemma LimitsDoNotShow(r: Reads, l: Rows, limit: nat)
    requires Listed(r, l)
    requires forall i :: 0 <= i < 4 ==> Descending(Sources(r, l)[i])
    ensures Listed(r, Limited(l, limit))
    ensures Served(r, l, limit) == Complete(r, l, limit)
  {
    LimitedSources(r, l, limit);
    hide Sources, Newest, Concat, Descending, Limited;
    CutSourcesSuffice(Sources(r, l), limit);
  }

  /** No listing has a row twice. */
  predicate NoDuplicates(l: Rows) {
    Distinct(l.receipts) && Distinct(l.challenges) && Distinct(l.intents) && Distinct(l.blocked)
  }

  lemma DistinctConcat<T>(s: seq<seq<T>>)
    requires |s| == 4 && forall i :: 0 <= i < 4 ==> Distinct(s[i])
    requires forall i, j, e :: 0 <= i < j < 4 && e in s[i] ==> e !in s[j]
    ensures Distinct(Concat(s))
  {
    ConcatFour(s);
    hide Concat;
    DistinctPair(s[0], s[1]);
    DistinctPair(s[0] + s[1], s[2]);
    DistinctPair(s[0] + s[1] + s[2], s[3]);
  }

  lemma DistinctPair<T>(a: seq<T>, b: seq<T>)
    requires Distinct(a) && Distinct(b) && forall e :: e in a ==> e !in b
    ensures Distinct(a + b)
  {
    forall i, j | 0 <= i < j < |a + b|
      ensures (a + b)[i] != (a + b)[j]
    {
      if i < |a| <= j {
        assert a[i] in a && b[j - |a|] in b;
      }
    }
  }

  lemma EntriesDistinct(r: Reads, l: Rows)
    requires Listed(r, l) && NoDuplicates(l)
    ensures Distinct(Concat(Sources(r, l)))
  {
    var s := Sources(r, l);
    ReceiptSource(r, l);
    ChallengeSource(r, l);
    IntentSource(r, l);
    BlockedSource(r, l);
    hide Sources;
    forall i | 0 <= i < 4
      ensures Distinct(s[i])
    {
    }
    forall i, j, e: Entry<Body> | 0 <= i < j < 4 && e in s[i]
      ensures e !in s[j]
    {
      assert e in s[0] ==> e.item.ReceiptBody?;
      assert e in s[1] ==> e.item.ChallengeBody?;
      assert e in s[2] ==> e.item.IntentBody?;
      assert e in s[3] ==> e.item.BlockedBody?;
    }
    DistinctConcat(s);
  }

  /**
   For any listings: the served feed is the complete one exactly when every entry with fewer
   than `limit` entries ahead of it is among the first `limit` of its listing.
   */
  lemma LimitsDoNotShowIff(r: Reads, l: Rows, limit: nat)
    requires Listed(r, l) && NoDuplicates(l)
    ensures Listed(r, Limited(l, limit))
    ensures var s := Sources(r, l);
            Served(r, l, limit) == Complete(r, l, limit) <==>
            forall e :: e in Concat(s) && Ahead(Concat(s), e) < limit ==> Fetched(s, limit, e)
  {
    LimitedSources(r, l, limit);
    EntriesDistinct(r, l);
    hide Sources, Newest, Concat, Ahead, Fetched, Limited;
    CutSourcesRightIff(Sources(r, l), limit);
  }

  // ----- the four queries

  function ReceiptRanks(t: Tables, owner: nat): map<nat, Rank> {
    map k | k in t.receipts && t.receipts[k].main.owner == owner ::
      Rank(t.receipts[k].main.block, t.receipts[k].main.index)
  }

  /** Joined with the receipts: a challenge counts for the owner of its receipt. */
  function ChallengeRanks(t: Tables, owner: nat): map<nat, Rank> {
    map k | k in t.challenges && OwnedReceipt(t, t.challenges[k].main.receiptId, owner) ::
      Rank(t.challenges[k].main.filedBlock, t.challenges[k].main.filedAt)
  }

  predicate OwnedReceipt(t: Tables, id: nat, owner: nat) {
    id in t.receipts && t.receipts[id].main.owner == owner
  }

  function IntentRanks(t: Tables, owner: nat): map<nat, Rank> {
    map k | k in t.intents && t.intents[k].owner == owner :: Rank(t.intents[k].block, 0)
  }

  function BlockedRanks(blocked: map<nat, BlockedRow>, owner: nat): map<nat, Rank> {
    map k | k in blocked && (blocked[k].owner == Some(owner) || blocked[k].owner == None) ::
      Rank(blocked[k].createdAt, 0)
  }

  /** The first rows of some listing of all that have a rank. */
  ghost predicate First(rows: seq<nat>, rank: map<nat, Rank>, limit: nat) {
    exists all: seq<nat> :: Ranked(all, rank) && rows == Cut(all, limit)
  }

  method ListReceiptsByOwner(t: Tables, owner: nat, limit: nat) returns (rows: seq<nat>)
    ensures First(rows, ReceiptRanks(t, owner), limit)
  {
    var ranked := OrderDescending(ReceiptRanks(t, owner));
    return Cut(ranked, limit);
  }

  method ListChallengesByOwner(t: Tables, owner: nat, limit: nat) returns (rows: seq<nat>)
    ensures First(rows, ChallengeRanks(t, owner), limit)
  {
    var ranked := OrderDescending(ChallengeRanks(t, owner));
    return Cut(ranked, limit);
  }

  method ListIntentsByOwner(t: Tables, owner: nat, limit: nat) returns (rows: seq<nat>)
    ensures First(rows, IntentRanks(t, owner), limit)
  {
    var ranked := OrderDescending(IntentRanks(t, owner));
    return Cut(ranked, limit);
  }

  method ListBlockedByOwner(blocked: map<nat, BlockedRow>, owner: nat, limit: nat) returns (rows: seq<nat>)
    ensures First(rows, BlockedRanks(blocked, owner), limit)
  {
    var ranked := OrderDescending(BlockedRanks(blocked, owner));
    return Cut(ranked, limit);
  }

  /** The listings the queries would return without their LIMITs. */
  ghost predicate Unlimited(r: Reads, owner: nat, l: Rows) {
    Ranked(l.receipts, ReceiptRanks(r.tables, owner)) && Ranked(l.challenges, ChallengeRanks(r.tables, owner)) &&
    Ranked(l.intents, IntentRanks(r.tables, owner)) && Ranked(l.blocked, BlockedRanks(r.blocked, owner))
  }

  lemma UnlimitedRows(r: Reads, owner: nat, l: Rows)
    requires Unlimited(r, owner, l)
    ensures Listed(r, l) && NoDuplicates(l)
    ensures ReceiptOrder(r.tables, l.receipts) && ChallengeOrder(r.tables, l.challenges)
    ensures forall k :: k in l.receipts <==> OwnedReceipt(r.tables, k, owner)
    ensures forall k :: k in l.challenges <==>
              k in r.tables.challenges && OwnedReceipt(r.tables, r.tables.challenges[k].main.receiptId, owner)
    ensures forall k :: k in l.intents <==> k in r.tables.intents && r.tables.intents[k].owner == owner
    ensures forall k :: k in l.blocked <==> k in r.blocked && ShownTo(r.blocked[k], owner)
  {
    ReceiptRows(r, owner, l);
    ChallengeRows(r, owner, l);
    OtherRows(r, owner, l);
    hide RankedPair;
    forall i | 0 <= i < |l.receipts|
      ensures l.receipts[i] in r.tables.receipts
    {
      assert l.receipts[i] in l.receipts;
    }
    forall i | 0 <= i < |l.challenges|
      ensures l.challenges[i] in r.tables.challenges
    {
      assert l.challenges[i] in l.challenges;
    }
    forall i | 0 <= i < |l.intents|
      ensures l.intents[i] in r.tables.intents
    {
      assert l.intents[i] in l.intents && l.intents[i] in IntentRanks(r.tables, owner);
    }
    forall i | 0 <= i < |l.blocked|
      ensures l.blocked[i] in r.blocked
    {
      assert l.blocked[i] in l.blocked && l.blocked[i] in BlockedRanks(r.blocked, owner);
    }
  }

  /** A blocked attempt is the owner's, or of no known owner. */
  predicate ShownTo(row: BlockedRow, owner: nat) {
    match row.owner
    case Some(o) => o == owner
    case None => true
  }

  lemma OtherRows(r: Reads, owner: nat, l: Rows)
    requires Unlimited(r, owner, l)
    ensures forall k :: k in l.intents <==> k in r.tables.intents && r.tables.intents[k].owner == owner
    ensures forall k :: k in l.blocked <==> k in r.blocked && ShownTo(r.blocked[k], owner)
  {
    hide RankedPair;
  }

  /** The intent listing goes down by block, that of blocked attempts by creation time. */
  lemma ListedDown(r: Reads, owner: nat, l: Rows, i: nat, j: nat)
    requires Unlimited(r, owner, l) && Listed(r, l)
    ensures i < j < |l.intents| ==> r.tables.intents[l.intents[i]].block >= r.tables.intents[l.intents[j]].block
    ensures i < j < |l.blocked| ==> r.blocked[l.blocked[i]].createdAt >= r.blocked[l.blocked[j]].createdAt
  {
    if i < j < |l.intents| {
      OldPair(l.intents, IntentRanks(r.tables, owner), i, j);
    }
    if i < j < |l.blocked| {
      OldPair(l.blocked, BlockedRanks(r.blocked, owner), i, j);
    }
  }

  lemma ReceiptRows(r: Reads, owner: nat, l: Rows)
    requires Unlimited(r, owner, l)
    ensures forall k :: k in l.receipts <==> OwnedReceipt(r.tables, k, owner)
    ensures ReceiptOrder(r.tables, l.receipts)
  {
    var t := r.tables;
    forall i: nat, j: nat | i < j < |l.receipts|
      ensures l.receipts[i] in t.receipts && l.receipts[j] in t.receipts
      ensures var a, b := t.receipts[l.receipts[i]].main, t.receipts[l.receipts[j]].main;
              a.block > b.block || (a.block == b.block && a.index >= b.index)
    {
      OldPair(l.receipts, ReceiptRanks(t, owner), i, j);
    }
  }

  lemma ChallengeRows(r: Reads, owner: nat, l: Rows)
    requires Unlimited(r, owner, l)
    ensures forall k :: k in l.challenges <==>
              k in r.tables.challenges && OwnedReceipt(r.tables, r.tables.challenges[k].main.receiptId, owner)
    ensures ChallengeOrder(r.tables, l.challenges)
  {
    var t := r.tables;
    forall i: nat, j: nat | i < j < |l.challenges|
      ensures l.challenges[i] in t.challenges && l.challenges[j] in t.challenges
      ensures FiledNoEarlier(t.challenges[l.challenges[i]].main, t.challenges[l.challenges[j]].main)
    {
      OldPair(l.challenges, ChallengeRanks(t, owner), i, j);
    }
  }

  lemma BlockedNewestFirst(r: Reads, owner: nat, l: Rows)
    requires Unlimited(r, owner, l) && Listed(r, l)
    ensures Descending(Sources(r, l)[3])
  {
    var s := Sources(r, l)[3];
    BlockedSource(r, l);
    hide Sources;
    forall i, j | 0 <= i < j < |s|
      ensures s[i].timestamp >= s[j].timestamp
    {
      assert RankedPair(l.blocked, BlockedRanks(r.blocked, owner), i, j);
    }
  }

  /** The feed made of the first rows of `all`, listings the queries might return without their LIMITs. */
  ghost predicate FeedOf(r: Reads, owner: nat, limit: nat, all: Rows, feed: seq<Entry<Body>>) {
    Unlimited(r, owner, all) && Listed(r, Limited(all, limit)) && feed == Served(r, all, limit)
  }

  /**
   What an owner may find in the feed: the owner's receipts, the challenges of those receipts,
   the owner's intents, and blocked attempts of the owner or of no known owner, each with its
   row's columns and time.
   */
  predicate OwnersEntry(r: Reads, owner: nat, e: Entry<Body>) {
    match e.item
    case ReceiptBody(id, receipt, traceUri, challengeable, windowEndsAt) =>
      OwnedReceipt(r.tables, id, owner) && r.tables.receipts[id].main == receipt &&
      r.tables.receipts[id].extra == traceUri && e.timestamp == receipt.ts &&
      windowEndsAt == e.timestamp + WindowSec(r.deployment) &&
      (challengeable <==>
        DetailFlag(receipt, StatusOf(r.tables.challenges, r.found(id)), r.manifests, r.deployment, r.now))
    case ChallengeBody(id, filed, resolved) =>
      id in r.tables.challenges && OwnedReceipt(r.tables, filed.receiptId, owner) &&
      r.tables.challenges[id].main == filed && r.tables.challenges[id].extra == resolved &&
      (if resolved.resolvedAt.Some? then resolved.resolvedAt == Some(e.timestamp) else e.timestamp == filed.filedAt)
    case IntentBody(hash, intent) =>
      hash in r.tables.intents && r.tables.intents[hash] == intent && intent.owner == owner &&
      e.timestamp == intent.createdAt
    case BlockedBody(id, blocked) =>
      id in r.blocked && r.blocked[id] == blocked && ShownTo(blocked, owner) && e.timestamp == blocked.createdAt
  }

  lemma ReceiptEntryIsOwners(r: Reads, owner: nat, id: nat)
    requires OwnedReceipt(r.tables, id, owner)
    ensures OwnersEntry(r, owner, ReceiptEntry(r, id))
  {
    var status := StatusOf(r.tables.challenges, r.found(id));
    EachDecision(r.tables, id, status, r.manifests, r.deployment, r.now);
    hide FeedFlag, DetailFlag, StatusOf;
  }

  lemma OtherEntriesAreOwners(r: Reads, owner: nat, k: nat)
    ensures k in r.tables.challenges && OwnedReceipt(r.tables, r.tables.challenges[k].main.receiptId, owner) ==>
      OwnersEntry(r, owner, ChallengeEntry(r, k))
    ensures k in r.tables.intents && r.tables.intents[k].owner == owner ==> OwnersEntry(r, owner, IntentEntry(r, k))
    ensures k in r.blocked && ShownTo(r.blocked[k], owner) ==> OwnersEntry(r, owner, BlockedEntry(r, k))
  {
  }

  lemma InCut<T>(s: seq<T>, limit: nat, x: T)
    requires x in Cut(s, limit)
    ensures x in s
  {
  }

  lemma SourceEntriesAreOwners(r: Reads, owner: nat, all: Rows, limit: nat, i: nat, e: Entry<Body>)
    requires Unlimited(r, owner, all) && Listed(r, Limited(all, limit))
    requires i < 4 && e in Sources(r, Limited(all, limit))[i]
    ensures OwnersEntry(r, owner, e)
  {
    var m := Limited(all, limit);
    UnlimitedRows(r, owner, all);
    ReceiptSource(r, m);
    ChallengeSource(r, m);
    IntentSource(r, m);
    BlockedSource(r, m);
    var s := Sources(r, m)[i];
    hide Sources, Unlimited, Listed, OwnersEntry, ReceiptEntry, ChallengeEntry, IntentEntry, BlockedEntry, Cut;
    hide OwnedReceipt, ShownTo;
    var j :| 0 <= j < |s| && s[j] == e;
    match i
    case 0 =>
      InCut(all.receipts, limit, m.receipts[j]);
      ReceiptEntryIsOwners(r, owner, m.receipts[j]);
    case 1 =>
      InCut(all.challenges, limit, m.challenges[j]);
      OtherEntriesAreOwners(r, owner, m.challenges[j]);
    case 2 =>
      InCut(all.intents, limit, m.intents[j]);
      OtherEntriesAreOwners(r, owner, m.intents[j]);
    case 3 =>
      InCut(all.blocked, limit, m.blocked[j]);
      OtherEntriesAreOwners(r, owner, m.blocked[j]);
  }

  /** Everything the four queries have for the owner. */
  ghost predicate HasAll(r: Reads, owner: nat, feed: seq<Entry<Body>>) {
    (forall id :: OwnedReceipt(r.tables, id, owner) ==> ReceiptEntry(r, id) in feed) &&
    (forall id :: id in r.tables.challenges && OwnedReceipt(r.tables, r.tables.challenges[id].main.receiptId, owner) ==>
       ChallengeEntry(r, id) in feed) &&
    (forall h :: h in r.tables.intents && r.tables.intents[h].owner == owner ==> IntentEntry(r, h) in feed) &&
    (forall id :: id in r.blocked && ShownTo(r.blocked[id], owner) ==> BlockedEntry(r, id) in feed)
  }

  lemma SourcesHaveAll(r: Reads, owner: nat, all: Rows)
    requires Unlimited(r, owner, all) && Listed(r, all)
    ensures HasAll(r, owner, Concat(Sources(r, all)))
  {
    var s := Sources(r, all);
    UnlimitedRows(r, owner, all);
    ReceiptSource(r, all);
    ChallengeSource(r, all);
    IntentSource(r, all);
    BlockedSource(r, all);
    ConcatFour(s);
    hide Sources, Concat, Unlimited, Listed, ReceiptEntry, ChallengeEntry, IntentEntry, BlockedEntry, OwnedReceipt, ShownTo;
    forall id | OwnedReceipt(r.tables, id, owner)
      ensures ReceiptEntry(r, id) in s[0]
    {
      assert id in all.receipts;
      var i :| 0 <= i < |all.receipts| && all.receipts[i] == id;
      assert s[0][i] == ReceiptEntry(r, id);
    }
    forall id | id in r.tables.challenges && OwnedReceipt(r.tables, r.tables.challenges[id].main.receiptId, owner)
      ensures ChallengeEntry(r, id) in s[1]
    {
      assert id in all.challenges;
      var i :| 0 <= i < |all.challenges| && all.challenges[i] == id;
      assert s[1][i] == ChallengeEntry(r, id);
    }
    forall h | h in r.tables.intents && r.tables.intents[h].owner == owner
      ensures IntentEntry(r, h) in s[2]
    {
      assert h in all.intents;
      var i :| 0 <= i < |all.intents| && all.intents[i] == h;
      assert s[2][i] == IntentEntry(r, h);
    }
    forall id | id in r.blocked && ShownTo(r.blocked[id], owner)
      ensures BlockedEntry(r, id) in s[3]
    {
      assert id in all.blocked;
      var i :| 0 <= i < |all.blocked| && all.blocked[i] == id;
      assert s[3][i] == BlockedEntry(r, id);
    }
  }

  lemma NewestEntries(s: seq<Entry<Body>>)
    ensures |Newest(s)| == |s| && forall e :: e in Newest(s) <==> e in s
  {
    NewestMembers(s);
    hide Newest;
    assert |Newest(s)| == |multiset(Newest(s))| == |multiset(s)| == |s|;
    forall e
      ensures e in Newest(s) <==> e in s
    {
      assert e in multiset(Newest(s)) <==> e in multiset(s);
    }
  }

  lemma FromSomeSource(s: seq<seq<Entry<Body>>>, limit: nat, e: Entry<Body>)
    requires |s| == 4 && e in Cut(Newest(Concat(s)), limit)
    ensures exists i: nat :: i < 4 && e in s[i]
  {
    hide Newest, Concat, Cut;
    InCut(Newest(Concat(s)), limit, e);
    NewestEntries(Concat(s));
    ConcatFour(s);
    assert e in s[0] || e in s[1] || e in s[2] || e in s[3];
  }

  lemma ServedDescends(s: seq<Entry<Body>>, limit: nat)
    ensures Descending(Cut(Newest(s), limit)) && |Cut(Newest(s), limit)| <= limit
  {
    NewestIsStableSort(s);
    hide Newest;
  }

  lemma ServedEntries(r: Reads, owner: nat, limit: nat, all: Rows, feed: seq<Entry<Body>>)
    requires FeedOf(r, owner, limit, all, feed)
    ensures forall e :: e in feed ==> OwnersEntry(r, owner, e)
    ensures Descending(feed) && |feed| <= limit
  {
    hide Sources, Newest, Concat, Cut, Descending, Unlimited, Listed, Limited, OwnersEntry;
    var s := Sources(r, Limited(all, limit));
    ServedDescends(Concat(s), limit);
    forall e | e in feed
      ensures OwnersEntry(r, owner, e)
    {
      FromSomeSource(s, limit, e);
      var i: nat :| i < 4 && e in s[i];
      SourceEntriesAreOwners(r, owner, all, limit, i, e);
    }
  }

  /** A feed shorter than its limit leaves nothing out. */
  lemma ShortFeedIsWhole(r: Reads, owner: nat, limit: nat, all: Rows, feed: seq<Entry<Body>>)
    requires FeedOf(r, owner, limit, all, feed) && |feed| < limit
    ensures HasAll(r, owner, feed)
  {
    var m := Limited(all, limit);
    var s := Sources(r, m);
    NewestEntries(Concat(s));
    ConcatFour(s);
    ReceiptSource(r, m);
    ChallengeSource(r, m);
    IntentSource(r, m);
    BlockedSource(r, m);
    hide Sources, Newest, Concat, Unlimited, Listed;
    assert |feed| == |Concat(s)|;
    assert m == all;
    SourcesHaveAll(r, owner, all);
    hide ReceiptEntry, ChallengeEntry, IntentEntry, BlockedEntry, OwnedReceipt, ShownTo;
  }

  /** GET /v1/feed for an owner. */
  method GetFeed(r: Reads, owner: nat, limit: nat) returns (feed: seq<Entry<Body>>)
    ensures exists all: Rows :: FeedOf(r, owner, limit, all, feed)
    ensures forall e :: e in feed ==> OwnersEntry(r, owner, e)
    ensures Descending(feed) && |feed| <= limit
    ensures |feed| < limit ==> HasAll(r, owner, feed)
  {
    var receipts := ListReceiptsByOwner(r.tables, owner, limit);
    var challenges := ListChallengesByOwner(r.tables, owner, limit);
    var intents := ListIntentsByOwner(r.tables, owner, limit);
    var blocked := ListBlockedByOwner(r.blocked, owner, limit);
    ghost var a: seq<nat> :| Ranked(a, ReceiptRanks(r.tables, owner)) && receipts == Cut(a, limit);
    ghost var b: seq<nat> :| Ranked(b, ChallengeRanks(r.tables, owner)) && challenges == Cut(b, limit);
    ghost var c: seq<nat> :| Ranked(c, IntentRanks(r.tables, owner)) && intents == Cut(c, limit);
    ghost var d: seq<nat> :| Ranked(d, BlockedRanks(r.blocked, owner)) && blocked == Cut(d, limit);
    ghost var all := Rows(a, b, c, d);
    UnlimitedRows(r, owner, all);
    LimitedSources(r, all, limit);
    hide Sources, Unlimited, Newest, Concat, Listed, OwnersEntry, HasAll, Descending;
    feed := ListFeed(r, Rows(receipts, challenges, intents, blocked), limit);
    assert FeedOf(r, owner, limit, all, feed);
    ServedEntries(r, owner, limit, all, feed);
    if |feed| < limit {
      ShortFeedIsWhole(r, owner, limit, all, feed);
    }
  }

  // ----- which listings are newest-first

  /** Ordered as listReceiptsByOwner orders: by block and then log index, descending. */
  predicate ReceiptOrder(t: Tables, ids: seq<nat>) {
    forall i, j :: 0 <= i < j < |ids| && ids[i] in t.receipts && ids[j] in t.receipts ==>
      var a, b := t.receipts[ids[i]].main, t.receipts[ids[j]].main;
      a.block > b.block || (a.block == b.block && a.index >= b.index)
  }

  /** Later receipts do not carry earlier timestamps, and those of one block carry the same. */
  predicate ReceiptsChronological(t: Tables) {
    forall x, y :: x in t.receipts && y in t.receipts ==>
      var a, b := t.receipts[x].main, t.receipts[y].main;
      a.block >= b.block ==> a.ts >= b.ts
  }

  lemma ReceiptsNewestFirst(r: Reads, l: Rows)
    requires Listed(r, l) && ReceiptOrder(r.tables, l.receipts) && ReceiptsChronological(r.tables)
    ensures Descending(Sources(r, l)[0])
  {
    ReceiptSource(r, l);
    hide Sources;
  }

  /** Ordered as listChallengesByOwner orders: by filing block and then filing time, descending. */
  predicate ChallengeOrder(t: Tables, ids: seq<nat>) {
    forall i, j :: 0 <= i < j < |ids| && ids[i] in t.challenges && ids[j] in t.challenges ==>
      FiledNoEarlier(t.challenges[ids[i]].main, t.challenges[ids[j]].main)
  }

  predicate ChallengesChronological(t: Tables) {
    forall x, y :: x in t.challenges && y in t.challenges ==>
      var a, b := t.challenges[x].main, t.challenges[y].main;
      a.filedBlock >= b.filedBlock ==> a.filedAt >= b.filedAt
  }

  /**
   An owner's feed shows the newest of all the owner's entries when receipt timestamps follow
   the blocks and the challenge and intent listings are newest-first.
   */
  lemma OwnersNewest(r: Reads, owner: nat, l: Rows, limit: nat)
    requires Unlimited(r, owner, l) && Listed(r, l) && ReceiptsChronological(r.tables)
    requires Descending(Sources(r, l)[1]) && Descending(Sources(r, l)[2])
    ensures Listed(r, Limited(l, limit)) && Served(r, l, limit) == Complete(r, l, limit)
  {
    hide Sources, Descending, Unlimited, Served, Complete, Limited, ReceiptOrder, ReceiptsChronological;
    UnlimitedRows(r, owner, l);
    ReceiptsNewestFirst(r, l);
    BlockedNewestFirst(r, owner, l);
    LimitsDoNotShow(r, l, limit);
  }

  /** A challenge's feed timestamp. */
  function Stamp(t: Tables, id: nat): int
    requires id in t.challenges
  {
    var row := t.challenges[id];
    if row.extra.resolvedAt.Some? then row.extra.resolvedAt.value else row.main.filedAt
  }

  /**
   A chronological challenge listing is newest-first exactly when no challenge was resolved
   after a challenge listed before it was filed (or, if that one is resolved, resolved).
   */
  lemma ChallengesNewestFirstIff(r: Reads, l: Rows)
    requires Listed(r, l) && ChallengeOrder(r.tables, l.challenges) && ChallengesChronological(r.tables)
    requires forall id :: id in r.tables.challenges ==>
               r.tables.challenges[id].main.filedAt <= Stamp(r.tables, id)
    ensures Descending(Sources(r, l)[1]) <==>
            forall i, j :: 0 <= i < j < |l.challenges| && r.tables.challenges[l.challenges[j]].extra.resolvedAt.Some? ==>
              r.tables.challenges[l.challenges[j]].extra.resolvedAt.value <= Stamp(r.tables, l.challenges[i])
  {
    var s, t := Sources(r, l)[1], r.tables;
    ChallengeSource(r, l);
    hide Sources;
    forall i | 0 <= i < |s|
      ensures s[i].timestamp == Stamp(t, l.challenges[i])
    {
    }
    if Descending(s) {
      forall i, j | 0 <= i < j < |s| && t.challenges[l.challenges[j]].extra.resolvedAt.Some?
        ensures t.challenges[l.challenges[j]].extra.resolvedAt.value <= Stamp(t, l.challenges[i])
      {
        assert s[i].timestamp >= s[j].timestamp;
      }
    }
  }

  /**
   A feed that misses its newest entry. The owner has one receipt with two challenges, both
   stamped after it; the one filed first was resolved last, so the listing puts it second and
   a limit of 1 cuts it.
   */
  lemma ResolvedChallengeMissing(r: Reads, owner: nat, rid: nat, early: nat, late: nat)
    requires r.tables.receipts.Keys == {rid} && r.tables.receipts[rid].main.owner == owner
    requires r.tables.intents == map[] && r.blocked == map[]
    requires r.tables.challenges.Keys == {early, late} && early != late
    requires var a, b := r.tables.challenges[early].main, r.tables.challenges[late].main;
             a.receiptId == b.receiptId == rid && a.filedBlock < b.filedBlock && a.filedAt <= b.filedAt
    requires Stamp(r.tables, early) > Stamp(r.tables, late) > r.tables.receipts[rid].main.ts
    ensures var l := Rows([rid], [late, early], [], []);
            Unlimited(r, owner, l) && Listed(r, l) && Listed(r, Limited(l, 1)) &&
            Served(r, l, 1) == [ChallengeEntry(r, late)] && Complete(r, l, 1) == [ChallengeEntry(r, early)]
  {
    var l, m := Rows([rid], [late, early], [], []), Rows([rid], [late], [], []);
    assert Limited(l, 1) == m;
    TwoChallenges(r, owner, rid, early, late);
    hide Unlimited, Newest, Concat;
    SourcesOf(r, l);
    SourcesOf(r, m);
    var e0, e1, e2 := ReceiptEntry(r, rid), ChallengeEntry(r, early), ChallengeEntry(r, late);
    assert Concat(Sources(r, l)) == [e0, e2, e1];
    assert Concat(Sources(r, m)) == [e0, e2];
    hide Sources;
    NewestHead([e0, e2, e1], 2);
    NewestHead([e0, e2], 1);
  }

  lemma TwoChallenges(r: Reads, owner: nat, rid: nat, early: nat, late: nat)
    requires r.tables.receipts.Keys == {rid} && r.tables.receipts[rid].main.owner == owner
    requires r.tables.intents == map[] && r.blocked == map[]
    requires r.tables.challenges.Keys == {early, late} && early != late
    requires var a, b := r.tables.challenges[early].main, r.tables.challenges[late].main;
             a.receiptId == b.receiptId == rid && a.filedBlock < b.filedBlock
    ensures Unlimited(r, owner, Rows([rid], [late, early], [], []))
  {
    var t := r.tables;
    var ranks := ChallengeRanks(t, owner);
    assert OwnedReceipt(t, rid, owner);
    assert ranks.Keys == {early, late};
    assert RankedPair([late, early], ranks, 0, 1);
    assert Ranked([late, early], ranks);
    assert ReceiptRanks(t, owner).Keys == {rid};
    assert Ranked([rid], ReceiptRanks(t, owner));
    assert Ranked([], IntentRanks(t, owner)) && Ranked([], BlockedRanks(r.blocked, owner));
  }

  lemma SourcesOf(r: Reads, l: Rows)
    requires Listed(r, l) && |l.receipts| == 1 && |l.challenges| <= 2 && l.intents == [] && l.blocked == []
    ensures Concat(Sources(r, l)) == Sources(r, l)[0] + Sources(r, l)[1]
    ensures Sources(r, l)[0] == [ReceiptEntry(r, l.receipts[0])]
    ensures |l.challenges| == 1 ==> Sources(r, l)[1] == [ChallengeEntry(r, l.challenges[0])]
    ensures |l.challenges| == 2 ==>
      Sources(r, l)[1] == [ChallengeEntry(r, l.challenges[0]), ChallengeEntry(r, l.challenges[1])]
  {
    hide Sources, ReceiptEntry, ChallengeEntry, IntentEntry, BlockedEntry, Concat;
    ReceiptSource(r, l);
    ChallengeSource(r, l);
    IntentSource(r, l);
    BlockedSource(r, l);
    ConcatFour(Sources(r, l));
  }

  /** The newest entry, when it is alone with its timestamp, comes first. */
  lemma NewestHead(s: seq<Entry<Body>>, i: nat)
    requires i < |s| && forall j :: 0 <= j < |s| && j != i ==> s[j].timestamp < s[i].timestamp
    ensures |Newest(s)| == |s| && Cut(Newest(s), 1) == [s[i]]
  {
    hide Newest;
    var r := Newest(s);
    NewestIsStableSort(s);
    NewestMembers(s);
    assert |r| == |multiset(r)| == |multiset(s)| == |s|;
    assert s[i] in multiset(s) && s[i] in multiset(r);
    var k :| 0 <= k < |r| && r[k] == s[i];
    assert r[0].timestamp >= s[i].timestamp;
    assert r[0] in multiset(r);
    var j :| 0 <= j < |s| && s[j] == r[0];
  }
}
