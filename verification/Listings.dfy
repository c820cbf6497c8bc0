/**
 ORDER BY ... DESC on the rows of a table: which sequences of keys such a query may return
 before its LIMIT. Rows that rank the same come in an order of the database's choice.
 */
module Listings {
  import opened NewestFirst

  datatype Rank = Rank(major: int, minor: int)

  predicate NoLower(a: Rank, b: Rank) {
    a.major > b.major || (a.major == b.major && a.minor >= b.minor)
  }

  /** All the keys, each once, none before one that ranks higher. */
  ghost predicate Ranked(all: seq<nat>, rank: map<nat, Rank>) {
    Distinct(all) && (forall k :: k in all <==> k in rank) &&
    forall i, j :: 0 <= i < j < |all| ==> RankedPair(all, rank, i, j)
  }

  predicate RankedPair(all: seq<nat>, rank: map<nat, Rank>, i: nat, j: nat)
    requires i < |all| && j < |all|
  {
    all[i] in rank && all[j] in rank && NoLower(rank[all[i]], rank[all[j]])
  }

  /** The place of a rank in a ranked sequence: before the first entry that ranks no higher. */
  function Place(all: seq<nat>, rank: map<nat, Rank>, r: Rank): (i: nat)
    requires forall k :: k in all ==> k in rank
    ensures i <= |all|
    ensures forall j :: 0 <= j < i ==> !NoLower(r, rank[all[j]])
    ensures i < |all| ==> NoLower(r, rank[all[i]])
  {
    if all == [] || NoLower(r, rank[all[0]]) then 0 else 1 + Place(all[1..], rank, r)
  }

  function With(all: seq<nat>, i: nat, k: nat): (r: seq<nat>)
    requires i <= |all|
    ensures |r| == |all| + 1
  {
    all[..i] + [k] + all[i..]
  }

  lemma WithMembers(all: seq<nat>, i: nat, k: nat, x: nat)
    requires i <= |all|
    ensures x in With(all, i, k) <==> x == k || x in all
  {
    assert all == all[..i] + all[i..];
  }

  lemma InsertRanked(all: seq<nat>, rank: map<nat, Rank>, k: nat, r: Rank)
    requires Ranked(all, rank) && k !in rank
    ensures Ranked(With(all, Place(all, rank, r), k), rank[k := r])
  {
    hide With, Place, RankedPair;
    var i, rank' := Place(all, rank, r), rank[k := r];
    var all' := With(all, i, k);
    forall x: nat, y: nat | x < y < |all'|
      ensures all'[x] != all'[y] && RankedPair(all', rank', x, y)
    {
      InsertedPair(all, rank, k, r, i, x, y);
    }
    forall x
      ensures x in all' <==> x in rank'
    {
      WithMembers(all, i, k, x);
    }
  }

  lemma WithAt(all: seq<nat>, i: nat, k: nat, x: nat)
    requires i <= |all| && x <= |all|
    ensures With(all, i, k)[x] == if x < i then all[x] else if x == i then k else all[x - 1]
  {
  }

  lemma OldPair(all: seq<nat>, rank: map<nat, Rank>, i: nat, j: nat)
    requires Ranked(all, rank) && i < j < |all|
    ensures all[i] != all[j] && all[i] in rank && all[j] in rank && NoLower(rank[all[i]], rank[all[j]])
  {
    assert RankedPair(all, rank, i, j);
  }

  lemma NewPair(all: seq<nat>, rank: map<nat, Rank>, r: Rank, j: nat)
    requires Ranked(all, rank) && j < |all|
    ensures all[j] in rank
    ensures if j < Place(all, rank, r) then NoLower(rank[all[j]], r) else NoLower(r, rank[all[j]])
  {
    var i := Place(all, rank, r);
    assert all[j] in all;
    if i < j {
      assert all[i] in all;
      OldPair(all, rank, i, j);
    }
  }

  lemma InsertedPair(all: seq<nat>, rank: map<nat, Rank>, k: nat, r: Rank, i: nat, x: nat, y: nat)
    requires Ranked(all, rank) && k !in rank && i == Place(all, rank, r) && x < y <= |all|
    ensures var all' := With(all, i, k);
            all'[x] != all'[y] && RankedPair(all', rank[k := r], x, y)
  {
    hide With, Ranked, Place;
    WithAt(all, i, k, x);
    WithAt(all, i, k, y);
    if x == i {
      NewPair(all, rank, r, y - 1);
    } else if y == i {
      NewPair(all, rank, r, x);
    } else {
      OldPair(all, rank, if x < i then x else x - 1, if y < i then y else y - 1);
    }
  }

  method OrderDescending(rank: map<nat, Rank>) returns (all: seq<nat>)
    ensures Ranked(all, rank)
  {
    all := [];
    var rest := rank.Keys;
    ghost var done: map<nat, Rank> := map[];
    while rest != {}
      invariant rest <= rank.Keys
      invariant done == map k | k in rank && k !in rest :: rank[k]
      invariant Ranked(all, done)
    {
      var k :| k in rest;
      InsertRanked(all, done, k, rank[k]);
      SameRanks(all, done, rank, rank[k]);
      all := With(all, Place(all, rank, rank[k]), k);
      rest := rest - {k};
      done := done[k := rank[k]];
    }
    assert done == rank;
  }

  lemma {:induction false} SameRanks(all: seq<nat>, done: map<nat, Rank>, rank: map<nat, Rank>, r: Rank)
    requires forall k :: k in all ==> k in done && k in rank && done[k] == rank[k]
    ensures Place(all, done, r) == Place(all, rank, r)
  {
    if all != [] {
      SameRanks(all[1..], done, rank, r);
    }
  }
}
