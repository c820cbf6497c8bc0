/**
 When a receipt is offered for challenge: the flag in /feed, the flag in
 /receipts/:receiptId and the eligibility of /challenges/prepare-amount.
 */
module Challengeable {
  import opened Replay
  import opened IndexerTables
  import opened IndexerRuns

  /** Used by the read model when no deployment file is loaded. */
  const DEFAULT_WINDOW := 72 * 60 * 60

  /** Only what the decisions read of the deployment file. */
  datatype Deployment = Deployment(challengeWindowSec: int)

  /** Intent hash to maxSpendPerTx, for the manifests that are stored. */
  type Manifests = map<nat, int>

  // ----- findChallengeByReceipt

  /** In the query's order, `a` comes no later than `b`. */
  predicate FiledNoEarlier(a: FiledCols, b: FiledCols) {
    a.filedBlock > b.filedBlock || (a.filedBlock == b.filedBlock && a.filedAt >= b.filedAt)
  }

  /** `found` answers: the challenge of the receipt filed last, if there is one. Ties are the database's choice. */
  predicate Answers(challenges: Challenges, receiptId: nat, found: Option<nat>) {
    match found
    case None => forall id :: id in challenges ==> challenges[id].main.receiptId != receiptId
    case Some(best) =>
      best in challenges && challenges[best].main.receiptId == receiptId &&
      forall id :: id in challenges && challenges[id].main.receiptId == receiptId ==>
        FiledNoEarlier(challenges[best].main, challenges[id].main)
  }

  method FindChallengeByReceipt(challenges: Challenges, receiptId: nat) returns (found: Option<nat>)
    ensures Answers(challenges, receiptId, found)
  {
    found := None;
    var rest := challenges.Keys;
    while rest != {}
      invariant rest <= challenges.Keys
      invariant found.None? ==>
        forall id :: id in challenges && id !in rest ==> challenges[id].main.receiptId != receiptId
      invariant found.Some? ==> found.value in challenges && challenges[found.value].main.receiptId == receiptId
      invariant found.Some? ==>
        forall id :: id in challenges && id !in rest && challenges[id].main.receiptId == receiptId ==>
          FiledNoEarlier(challenges[found.value].main, challenges[id].main)
    {
      var id :| id in rest;
      rest := rest - {id};
      if challenges[id].main.receiptId == receiptId &&
        (found.None? || FiledNoEarlier(challenges[id].main, challenges[found.value].main)) {
        found := Some(id);
      }
    }
  }

  function StatusOf(challenges: Challenges, found: Option<nat>): Option<Status> {
    if found.Some? && found.value in challenges then Some(challenges[found.value].extra.status) else None
  }

  // ----- the three decisions, given the status of the challenge found

  function Overspends(manifests: Manifests, receipt: ReceiptCols): bool {
    receipt.intentHash in manifests && receipt.amount > manifests[receipt.intentHash]
  }

  function WindowSec(deployment: Option<Deployment>): int {
    if deployment.Some? then deployment.value.challengeWindowSec else DEFAULT_WINDOW
  }

  /** services/infra/src/api/feed.ts:72-78 */
  function FeedFlag(receipt: ReceiptCols, status: Option<Status>, manifests: Manifests,
                    deployment: Option<Deployment>, now: int): bool
  {
    var filed := status == Some(FILED) || status == Some(UPHELD);
    var windowEndsAt := receipt.ts + WindowSec(deployment);
    Overspends(manifests, receipt) && !filed && windowEndsAt > now
  }

  /** services/infra/src/api/feed.ts:159-179 */
  function DetailFlag(receipt: ReceiptCols, status: Option<Status>, manifests: Manifests,
                      deployment: Option<Deployment>, now: int): bool
  {
    var filed := status.Some? && status.value != REJECTED;
    var windowEndsAt := receipt.ts + WindowSec(deployment);
    Overspends(manifests, receipt) && !filed && windowEndsAt > now
  }

  datatype Prepared = DeploymentNotLoaded | ReceiptNotFound | ChallengeWindowClosed | ManifestNotIndexed
                    | NotOverspend | ChallengeAlready(status: Status) | Eligible

  /** services/infra/src/api/challenges-prepare.ts:47-106 */
  function Prepare(receipts: Receipts, receiptId: nat, status: Option<Status>, manifests: Manifests,
                   deployment: Option<Deployment>, now: int): Prepared
  {
    if deployment.None? then DeploymentNotLoaded
    else if receiptId !in receipts then ReceiptNotFound
    else
      var receipt := receipts[receiptId].main;
      var windowEndsAt := receipt.ts + deployment.value.challengeWindowSec;
      if windowEndsAt <= now then ChallengeWindowClosed
      else if receipt.intentHash !in manifests then ManifestNotIndexed
      else if receipt.amount <= manifests[receipt.intentHash] then NotOverspend
      else if status.Some? && status.value != REJECTED then ChallengeAlready(status.value)
      else Eligible
  }

  /** Any of the three offers the receipt. */
  predicate Offered(t: Tables, id: nat, found: Option<nat>, manifests: Manifests, deployment: Option<Deployment>, now: int) {
    var status := StatusOf(t.challenges, found);
    (id in t.receipts &&
     (FeedFlag(t.receipts[id].main, status, manifests, deployment, now) ||
      DetailFlag(t.receipts[id].main, status, manifests, deployment, now))) ||
    Prepare(t.receipts, id, status, manifests, deployment, now) == Eligible
  }

  /** All that matters of the challenge found: there is one and it was not rejected. */
  predicate Stands(status: Option<Status>) {
    status.Some? && status.value != REJECTED
  }

  /** Overspent, with the window open. */
  predicate Offerable(receipt: ReceiptCols, manifests: Manifests, deployment: Option<Deployment>, now: int) {
    Overspends(manifests, receipt) && receipt.ts + WindowSec(deployment) > now
  }

  lemma EachDecision(t: Tables, id: nat, status: Option<Status>, manifests: Manifests, deployment: Option<Deployment>, now: int)
    requires id in t.receipts
    ensures var offered := Offerable(t.receipts[id].main, manifests, deployment, now) && !Stands(status);
            FeedFlag(t.receipts[id].main, status, manifests, deployment, now) == offered &&
            DetailFlag(t.receipts[id].main, status, manifests, deployment, now) == offered &&
            (Prepare(t.receipts, id, status, manifests, deployment, now) == Eligible <==> deployment.Some? && offered)
  {
    match status
    case None =>
    case Some(FILED) =>
    case Some(UPHELD) =>
    case Some(REJECTED) =>
  }

  /**
   A receipt is offered exactly when its manifest is stored, it spent more than the manifest's
   maximum, the window (three days without a deployment) is open, and its last challenge, if it
   has one, was rejected.
   */
  lemma OfferedIff(t: Tables, id: nat, found: Option<nat>, manifests: Manifests, deployment: Option<Deployment>, now: int)
    requires id in t.receipts && Answers(t.challenges, id, found)
    ensures var receipt := t.receipts[id].main;
            var window := if deployment.Some? then deployment.value.challengeWindowSec else 3 * 24 * 3600;
            Offered(t, id, found, manifests, deployment, now) <==>
            receipt.intentHash in manifests && manifests[receipt.intentHash] < receipt.amount &&
            now < receipt.ts + window &&
            (found.Some? ==> t.challenges[found.value].extra.status == REJECTED)
  {
    EachDecision(t, id, StatusOf(t.challenges, found), manifests, deployment, now);
    hide FeedFlag, DetailFlag, Prepare;
  }

  /** So a receipt within its manifest's maximum is never offered, nor one without a manifest. */
  lemma WithinLimitNeverOffered(t: Tables, id: nat, found: Option<nat>, manifests: Manifests,
                                deployment: Option<Deployment>, now: int)
    requires id in t.receipts
    requires var receipt := t.receipts[id].main;
             receipt.intentHash in manifests ==> receipt.amount <= manifests[receipt.intentHash]
    ensures !Offered(t, id, found, manifests, deployment, now)
  {
    EachDecision(t, id, StatusOf(t.challenges, found), manifests, deployment, now);
    hide FeedFlag, DetailFlag, Prepare;
  }

  /** The challenge found is the receipt's own, and no other of the receipt was filed after it. */
  lemma FoundIsLastFiled(challenges: Challenges, receiptId: nat, best: nat, other: nat)
    requires Answers(challenges, receiptId, Some(best))
    requires other in challenges && challenges[other].main.receiptId == receiptId
    ensures best in challenges && challenges[best].main.receiptId == receiptId
    ensures challenges[other].main.filedBlock <= challenges[best].main.filedBlock
    ensures challenges[other].main.filedBlock == challenges[best].main.filedBlock ==>
      challenges[other].main.filedAt <= challenges[best].main.filedAt
  {
  }

  /** Each refusal has its own cause; the first of them in the order deployment, receipt, window, manifest, amount, challenge is given. */
  lemma RefusalIff(t: Tables, id: nat, found: Option<nat>, manifests: Manifests, deployment: Option<Deployment>, now: int)
    requires Answers(t.challenges, id, found)
    ensures var r := Prepare(t.receipts, id, StatusOf(t.challenges, found), manifests, deployment, now);
            (r.DeploymentNotLoaded? <==> deployment.None?) &&
            (r.ReceiptNotFound? <==> deployment.Some? && id !in t.receipts) &&
            (deployment.Some? && id in t.receipts ==>
              var receipt, window := t.receipts[id].main, deployment.value.challengeWindowSec;
              (r.ChallengeWindowClosed? <==> now >= receipt.ts + window) &&
              (r.ManifestNotIndexed? <==> now < receipt.ts + window && receipt.intentHash !in manifests) &&
              (r.NotOverspend? <==> now < receipt.ts + window && receipt.intentHash in manifests &&
                                    receipt.amount <= manifests[receipt.intentHash]) &&
              (r.ChallengeAlready? ==> found.Some? && t.challenges[found.value].extra.status == r.status != REJECTED))
  {
  }

  /** The three decisions agree when their queries answer `f`, `g` and `h`. */
  predicate Agree(t: Tables, id: nat, manifests: Manifests, deployment: Option<Deployment>, now: int,
                  f: Option<nat>, g: Option<nat>, h: Option<nat>)
    requires id in t.receipts
  {
    var c := t.challenges;
    var detail := DetailFlag(t.receipts[id].main, StatusOf(c, g), manifests, deployment, now);
    FeedFlag(t.receipts[id].main, StatusOf(c, f), manifests, deployment, now) == detail &&
    (Prepare(t.receipts, id, StatusOf(c, h), manifests, deployment, now) == Eligible) == detail
  }

  /** Challenges tied for the last filed of a receipt all stand, or all were rejected. */
  ghost predicate TiesAgree(challenges: Challenges, id: nat) {
    forall x, y :: Answers(challenges, id, x) && Answers(challenges, id, y) ==>
      Stands(StatusOf(challenges, x)) == Stands(StatusOf(challenges, y))
  }

  ghost predicate AlwaysStands(challenges: Challenges, id: nat) {
    forall x :: Answers(challenges, id, x) ==> Stands(StatusOf(challenges, x))
  }

  /**
   Whatever the database answers each of the three, they agree on a receipt if and only if it
   cannot be offered, or the challenges tied for its last one agree and either the deployment
   is loaded or that challenge stands.
   */
  lemma DecisionsAgreeIff(t: Tables, id: nat, manifests: Manifests, deployment: Option<Deployment>, now: int)
    requires id in t.receipts
    ensures (forall f, g, h :: Answers(t.challenges, id, f) && Answers(t.challenges, id, g) && Answers(t.challenges, id, h)
              ==> Agree(t, id, manifests, deployment, now, f, g, h)) <==>
            !Offerable(t.receipts[id].main, manifests, deployment, now) ||
            (TiesAgree(t.challenges, id) && (deployment.Some? || AlwaysStands(t.challenges, id)))
  {
    var c := t.challenges;
    hide FeedFlag, DetailFlag, Prepare, Stands, Offerable, Answers, StatusOf;
    forall f, g, h
      ensures Agree(t, id, manifests, deployment, now, f, g, h) <==>
              !Offerable(t.receipts[id].main, manifests, deployment, now) ||
              (Stands(StatusOf(c, f)) == Stands(StatusOf(c, g)) &&
               (if deployment.Some? then Stands(StatusOf(c, h)) == Stands(StatusOf(c, g)) else Stands(StatusOf(c, g))))
    {
      EachDecision(t, id, StatusOf(c, f), manifests, deployment, now);
      EachDecision(t, id, StatusOf(c, g), manifests, deployment, now);
      EachDecision(t, id, StatusOf(c, h), manifests, deployment, now);
    }
    if !TiesAgree(c, id) {
      var x, y :| Answers(c, id, x) && Answers(c, id, y) && Stands(StatusOf(c, x)) != Stands(StatusOf(c, y));
      assert Agree(t, id, manifests, deployment, now, x, y, y) ==>
        !Offerable(t.receipts[id].main, manifests, deployment, now);
    } else if deployment.None? && !AlwaysStands(c, id) {
      var x :| Answers(c, id, x) && !Stands(StatusOf(c, x));
      assert Agree(t, id, manifests, deployment, now, x, x, x) ==>
        !Offerable(t.receipts[id].main, manifests, deployment, now);
    }
  }

  // ----- over runs of the indexer

  predicate SameReceipt(a: Log, b: Log) {
    a.event.ActionReceipt? && b.event.ActionReceipt? && a.event.receiptId == b.event.receiptId
  }

  /** A receipt id is emitted with one content only. */
  predicate FreshReceipts(s: seq<Log>) {
    forall a, b :: a in s && b in s && SameReceipt(a, b) ==> a.event == b.event
  }

  predicate Emitted(s: seq<Log>, id: nat, ts: nat) {
    exists l :: l in s && l.event.ActionReceipt? && l.event.receiptId == id && l.event.timestamp == ts
  }

  lemma EmittedStill(s: seq<Log>, q: seq<Log>, id: nat, ts: nat)
    requires Emitted(s, id, ts)
    ensures Emitted(s + q, id, ts)
  {
    var l :| l in s && l.event.ActionReceipt? && l.event.receiptId == id && l.event.timestamp == ts;
    assert l in s + q;
  }

  lemma EmittedOnce(s: seq<Log>, id: nat, ts: nat, ts': nat)
    requires FreshReceipts(s) && Emitted(s, id, ts) && Emitted(s, id, ts')
    ensures ts == ts'
  {
    var a :| a in s && a.event.ActionReceipt? && a.event.receiptId == id && a.event.timestamp == ts;
    var b :| b in s && b.event.ActionReceipt? && b.event.receiptId == id && b.event.timestamp == ts';
  }

  lemma LogsOfFront(w: seq<Handled>)
    requires w != []
    ensures LogsOf(w) == LogsOf(w[..|w| - 1]) + [w[|w| - 1].log]
  {
  }

  /** Every receipt row's timestamp is that of a handled event with its id. */
  lemma {:induction false} RowEmitted(w: seq<Handled>, id: nat)
    requires id in FoldLogs(w).receipts
    ensures Emitted(LogsOf(w), id, FoldLogs(w).receipts[id].main.ts)
    decreases |w|
  {
    var front, last := w[..|w| - 1], w[|w| - 1];
    LogsOfFront(w);
    if last.log.event.ActionReceipt? && last.log.event.receiptId == id {
      assert last.log in LogsOf(w);
    } else {
      RowEmitted(front, id);
      EmittedStill(LogsOf(front), [last.log], id, FoldLogs(front).receipts[id].main.ts);
    }
  }

  lemma {:induction false} ReceiptsStay(w: seq<Handled>, n: nat, id: nat)
    requires n <= |w| && id in FoldLogs(w[..n]).receipts
    ensures id in FoldLogs(w).receipts
    decreases |w|
  {
    if n == |w| {
      assert w[..n] == w;
    } else {
      assert w[..|w| - 1][..n] == w[..n];
      ReceiptsStay(w[..|w| - 1], n, id);
    }
  }

  lemma TimestampStays(w: seq<Handled>, n: nat, id: nat)
    requires n <= |w| && id in FoldLogs(w[..n]).receipts && FreshReceipts(LogsOf(w))
    ensures id in FoldLogs(w).receipts
    ensures FoldLogs(w).receipts[id].main.ts == FoldLogs(w[..n]).receipts[id].main.ts
  {
    hide FoldLogs, FreshReceipts, Emitted;
    ReceiptsStay(w, n, id);
    RowEmitted(w[..n], id);
    RowEmitted(w, id);
    assert LogsOf(w) == LogsOf(w[..n]) + LogsOf(w[n..]);
    EmittedStill(LogsOf(w[..n]), LogsOf(w[n..]), id, FoldLogs(w[..n]).receipts[id].main.ts);
    EmittedOnce(LogsOf(w), id, FoldLogs(w[..n]).receipts[id].main.ts, FoldLogs(w).receipts[id].main.ts);
  }

  /**
   Once a receipt's window has closed, none of the three ever offers it again, whatever is
   indexed, filed, resolved or replayed later.
   */
  lemma {:induction false} ClosedForGood(w: seq<Handled>, n: nat, id: nat, deployment: Option<Deployment>, now: int,
                                         found: Option<nat>, manifests: Manifests, later: int)
    requires n <= |w| && id in FoldLogs(w[..n]).receipts && FreshReceipts(LogsOf(w))
    requires FoldLogs(w[..n]).receipts[id].main.ts + WindowSec(deployment) <= now <= later
    ensures id in FoldLogs(w).receipts
    ensures !Offered(FoldLogs(w), id, found, manifests, deployment, later)
  {
    hide FoldLogs, LogsOf, FreshReceipts;
    TimestampStays(w, n, id);
  }

  /**
   A challenge filed later than every other of its receipt withdraws the receipt, and it is
   offered again only after a rejection of that challenge.
   */
  lemma FilingWithdraws(t: Tables, id: nat, challengeId: nat, found: Option<nat>, manifests: Manifests,
                        deployment: Option<Deployment>, now: int)
    requires Answers(t.challenges, id, found)
    requires challengeId in t.challenges && t.challenges[challengeId].main.receiptId == id
    requires forall k :: k in t.challenges && k != challengeId && t.challenges[k].main.receiptId == id ==>
               !FiledNoEarlier(t.challenges[k].main, t.challenges[challengeId].main)
    ensures Offered(t, id, found, manifests, deployment, now) ==> t.challenges[challengeId].extra.status == REJECTED
  {
    assert found == Some(challengeId);
  }
}
