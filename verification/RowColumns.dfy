/**
 What a reader finds in the indexer's tables, column by column: the fields of the logs that
 were handled, chosen by their place in the order of handling and by nothing else.
 */
module RowColumns {
  import opened Replay
  import opened IndexerTables
  import opened IndexerRuns
  import opened IntentRuns

  /** The logs that concern one row, by what they do to it. */
  datatype Kind =
    | OfReceipt(id: nat) | OfTraceUri(id: nat)
    | OfFiling(id: nat) | OfResolution(id: nat)
    | OfRegistration(id: nat) | OfStake(id: nat)
    | OfDelegate(key: DelegateKey)
    | OfCommit(hash: nat) | OfOwner(owner: nat)

  predicate Is(log: Log, k: Kind) {
    match (log.event, k)
    case (ActionReceipt(id, _, _, _, _, _, _, _, _, _, _), OfReceipt(i)) => id == i
    case (TraceURIStored(id, _), OfTraceUri(i)) => id == i
    case (ChallengeFiled(id, _, _), OfFiling(i)) => id == i
    case (ChallengeResolved(id, _, _), OfResolution(i)) => id == i
    case (AgentRegistered(id, _, _), OfRegistration(i)) => id == i
    case (AgentStaked(id, _), OfStake(i)) => id == i
    case (AgentDelegateSet(owner, agentId, delegate, _), OfDelegate(key)) =>
      key.owner == owner && key.agentId == agentId && key.delegate == delegate &&
      key.index == log.index && key.tx == log.tx
    case (IntentCommitted(h, _, _), OfCommit(hash)) => h == hash
    case (IntentCommitted(_, o, _), OfOwner(owner)) => o == owner
    case (IntentRevoked(o), OfOwner(owner)) => o == owner
    case _ => false
  }

  /** Where the last log of a kind was handled. */
  function LastOf(w: seq<Handled>, k: Kind): (r: Option<nat>)
    ensures r.Some? ==> r.value < |w| && Is(w[r.value].log, k)
  {
    if w == [] then None
    else if Is(w[|w| - 1].log, k) then Some(|w| - 1)
    else LastOf(w[..|w| - 1], k)
  }

  function FirstOf(w: seq<Handled>, k: Kind): (r: Option<nat>)
    ensures r.Some? ==> r.value < |w| && Is(w[r.value].log, k)
  {
    if w == [] then None
    else if FirstOf(w[..|w| - 1], k).Some? then FirstOf(w[..|w| - 1], k)
    else if Is(w[|w| - 1].log, k) then Some(|w| - 1)
    else None
  }

  lemma {:induction false} FirstAndLast(w: seq<Handled>, k: Kind)
    ensures FirstOf(w, k).None? <==> LastOf(w, k).None?
    ensures LastOf(w, k).None? ==> forall j :: 0 <= j < |w| ==> !Is(w[j].log, k)
    ensures LastOf(w, k).Some? ==> forall j :: LastOf(w, k).value < j < |w| ==> !Is(w[j].log, k)
    ensures FirstOf(w, k).Some? ==> forall j :: 0 <= j < FirstOf(w, k).value ==> !Is(w[j].log, k)
    decreases |w|
  {
    if w != [] {
      hide Is;
      var front := w[..|w| - 1];
      FirstAndLast(front, k);
      assert forall j :: 0 <= j < |front| ==> w[j] == front[j];
    }
  }

  /** The last log of the kind, if it was handled after place `c`. */
  function LastAfter(w: seq<Handled>, k: Kind, c: nat): (r: Option<nat>)
    ensures r.Some? ==> r.value < |w| && Is(w[r.value].log, k)
  {
    if LastOf(w, k).Some? && LastOf(w, k).value > c then LastOf(w, k) else None
  }

  lemma LastAfterStep(w: seq<Handled>, k: Kind, c: nat)
    requires w != [] && c < |w|
    ensures var front := w[..|w| - 1];
            LastAfter(w, k, c) ==
            if c == |front| then None
            else if Is(w[|front|].log, k) then Some(|front|)
            else LastAfter(front, k, c)
  {
    hide Is;
  }

  // ----- receipts

  predicate ReceiptFrom(main: ReceiptCols, log: Log) {
    log.event.ActionReceipt? &&
    main.owner == log.event.owner && main.agentId == log.event.agentId &&
    main.intentHash == log.event.intentHash && main.target == log.event.target &&
    main.token == log.event.token && main.amount == log.event.amount &&
    main.callDataHash == log.event.callDataHash && main.contextDigest == log.event.contextDigest &&
    main.nonce == log.event.nonce && main.ts == log.event.timestamp &&
    main.block == log.block && main.tx == log.tx && main.index == log.index
  }

  lemma ReceiptStep(log: Log, now: int, t: Receipts, id: nat)
    ensures var u := Apply(ReceiptOp(log, now), None, t);
            (id in u <==> id in t || Is(log, OfReceipt(id))) &&
            (id in t ==> u[id].ins == t[id].ins) &&
            (Is(log, OfReceipt(id)) ==> ReceiptFrom(u[id].main, log)) &&
            (id in t && !Is(log, OfReceipt(id)) ==> u[id].main == t[id].main) &&
            (id in t && !Is(log, OfTraceUri(id)) ==> u[id].extra == t[id].extra) &&
            (id in t && Is(log, OfTraceUri(id)) ==> u[id].extra == Some(log.event.traceUri)) &&
            (id !in t && id in u ==> u[id].ins == now && u[id].extra == None)
  {
  }

  /** A receipt is stored when its event was handled, and its columns are those of the last such event. */
  lemma {:induction false} ReceiptColumns(w: seq<Handled>, id: nat)
    ensures var last := LastOf(w, OfReceipt(id));
            (id in FoldLogs(w).receipts <==> last.Some?) &&
            (last.Some? ==> ReceiptFrom(FoldLogs(w).receipts[id].main, w[last.value].log))
    decreases |w|
  {
    hide Is, Apply, ReceiptFrom, ReceiptOp, ChallengeOp, AgentOp, DelegateOp, IntentStep;
    if w != [] {
      ReceiptColumns(w[..|w| - 1], id);
      ReceiptStep(w[|w| - 1].log, w[|w| - 1].now, FoldLogs(w[..|w| - 1]).receipts, id);
    }
  }

  /** created_at is the clock at the first such event, and the trace URI the last one stored after it. */
  lemma {:induction false} ReceiptOrigin(w: seq<Handled>, id: nat)
    requires id in FoldLogs(w).receipts
    ensures FirstOf(w, OfReceipt(id)).Some?
    ensures var first, row := FirstOf(w, OfReceipt(id)).value, FoldLogs(w).receipts[id];
            var uri := LastAfter(w, OfTraceUri(id), first);
            row.ins == w[first].now &&
            row.extra == if uri.Some? then Some(w[uri.value].log.event.traceUri) else None
    decreases |w|
  {
    hide Is, Apply, LastOf, LastAfter, ReceiptOp, ChallengeOp, AgentOp, DelegateOp, IntentStep;
    var front, last := w[..|w| - 1], w[|w| - 1];
    ReceiptColumns(w, id);
    ReceiptColumns(front, id);
    FirstAndLast(w, OfReceipt(id));
    FirstAndLast(front, OfReceipt(id));
    LastAfterStep(w, OfTraceUri(id), FirstOf(w, OfReceipt(id)).value);
    ReceiptStep(last.log, last.now, FoldLogs(front).receipts, id);
    if id in FoldLogs(front).receipts {
      ReceiptOrigin(front, id);
    }
  }

  /** The last event of receipt `k` has the log's transaction and index. */
  predicate SharesProvenance(w: seq<Handled>, k: nat, log: Log) {
    var last := LastOf(w, OfReceipt(k));
    last.Some? && w[last.value].log.tx == log.tx && w[last.value].log.index == log.index
  }

  /** A receipt's insertion fails exactly when the last event of another receipt has its provenance. */
  lemma ReceiptViolatesIff(w: seq<Handled>, log: Log)
    requires log.event.ActionReceipt?
    ensures Violates(log, FoldLogs(w)) <==> exists k :: k != log.event.receiptId && SharesProvenance(w, k, log)
  {
    hide FoldLogs, LastOf;
    var t, id := FoldLogs(w).receipts, log.event.receiptId;
    if k :| k in t && k != id && t[k].main.tx == log.tx && t[k].main.index == log.index {
      ReceiptColumns(w, k);
      assert SharesProvenance(w, k, log);
    }
    if k :| k != id && SharesProvenance(w, k, log) {
      ReceiptColumns(w, k);
    }
  }

  // ----- challenges

  lemma ResolutionStep(log: Log, t: Challenges, id: nat)
    ensures var u := Apply(ChallengeOp(log), UNRESOLVED, t);
            (id in t && !Is(log, OfResolution(id)) ==> id in u && u[id].extra == t[id].extra) &&
            (id in t && Is(log, OfResolution(id)) ==> id in u && ResolvedBy(u[id].extra, log)) &&
            (id !in t && id in u ==> Unresolved(u[id].extra))
  {
  }

  predicate ResolvedBy(extra: ResolvedCols, log: Log) {
    log.event.ChallengeResolved? &&
    (extra.status.UPHELD? <==> log.event.uphold) && (extra.status.REJECTED? <==> !log.event.uphold) &&
    extra.payout == Some(log.event.payout) && extra.resolvedBlock == Some(log.block) &&
    extra.resolvedTx == Some(log.tx) && extra.resolvedAt == Some(log.blockTimestamp)
  }

  predicate Unresolved(extra: ResolvedCols) {
    extra.status.FILED? && extra.payout.None? && extra.resolvedBlock.None? &&
    extra.resolvedTx.None? && extra.resolvedAt.None?
  }

  /** A challenge is stored when its filing was handled; the filing columns are those of the last one. */
  lemma {:induction false} ChallengeFilingColumns(w: seq<Handled>, id: nat)
    ensures var last := LastOf(w, OfFiling(id));
            (id in FoldLogs(w).challenges <==> last.Some?) &&
            (last.Some? ==>
              var main, log := FoldLogs(w).challenges[id].main, w[last.value].log;
              main.receiptId == log.event.challengedReceipt && main.challenger == log.event.challenger &&
              main.filedBlock == log.block && main.filedTx == log.tx && main.filedAt == log.blockTimestamp)
    decreases |w|
  {
    hide ReceiptOp, AgentOp, DelegateOp, IntentStep;
    if w != [] {
      ChallengeFilingColumns(w[..|w| - 1], id);
    }
  }

  /**
   The last resolution handled after the filing decides: the status is UPHELD exactly when it
   upheld the challenge. Without one the challenge is FILED and has no resolution columns.
   */
  lemma {:induction false} ChallengeResolutionColumns(w: seq<Handled>, id: nat)
    requires id in FoldLogs(w).challenges
    ensures FirstOf(w, OfFiling(id)).Some?
    ensures var last := LastAfter(w, OfResolution(id), FirstOf(w, OfFiling(id)).value);
            var extra := FoldLogs(w).challenges[id].extra;
            if last.Some? then ResolvedBy(extra, w[last.value].log) else Unresolved(extra)
    decreases |w|
  {
    hide Is, Apply, LastOf, LastAfter, ResolvedBy, Unresolved;
    hide ReceiptOp, ChallengeOp, AgentOp, DelegateOp, IntentStep;
    var front, last := w[..|w| - 1], w[|w| - 1];
    ChallengeFilingColumns(w, id);
    ChallengeFilingColumns(front, id);
    FirstAndLast(w, OfFiling(id));
    FirstAndLast(front, OfFiling(id));
    LastAfterStep(w, OfResolution(id), FirstOf(w, OfFiling(id)).value);
    ResolutionStep(last.log, FoldLogs(front).challenges, id);
    if id in FoldLogs(front).challenges {
      ChallengeResolutionColumns(front, id);
    }
  }

  // ----- agents and delegates

  lemma AgentStep(log: Log, now: int, t: Agents, id: nat)
    ensures var u := Apply(AgentOp(log, now), 0, t);
            (id in t ==> id in u && u[id].ins == t[id].ins) &&
            (id in t && !Is(log, OfStake(id)) ==> u[id].extra == t[id].extra) &&
            (id in t && Is(log, OfStake(id)) ==> u[id].extra == log.event.newStake) &&
            (id !in t && id in u ==> u[id].ins == AgentOrigin(log.block, log.tx, now) && u[id].extra == 0)
  {
  }

  /** An agent is stored when it was registered, with the operator and metadata of the last registration. */
  lemma {:induction false} AgentColumns(w: seq<Handled>, id: nat)
    ensures var last := LastOf(w, OfRegistration(id));
            (id in FoldLogs(w).agents <==> last.Some?) &&
            (last.Some? ==>
              var main, log := FoldLogs(w).agents[id].main, w[last.value].log;
              main.operator == log.event.operator && main.metadataUri == log.event.metadataUri)
    decreases |w|
  {
    hide ReceiptOp, ChallengeOp, DelegateOp, IntentStep;
    if w != [] {
      AgentColumns(w[..|w| - 1], id);
    }
  }

  /** Its block, transaction and created_at are those of the first registration, its stake the last one announced after it. */
  lemma {:induction false} AgentOriginColumns(w: seq<Handled>, id: nat)
    requires id in FoldLogs(w).agents
    ensures FirstOf(w, OfRegistration(id)).Some?
    ensures var first, row := FirstOf(w, OfRegistration(id)).value, FoldLogs(w).agents[id];
            var stake := LastAfter(w, OfStake(id), first);
            row.ins.block == w[first].log.block && row.ins.tx == w[first].log.tx &&
            row.ins.createdAt == w[first].now &&
            row.extra == if stake.Some? then w[stake.value].log.event.newStake else 0
    decreases |w|
  {
    hide Is, Apply, LastOf, LastAfter, ReceiptOp, ChallengeOp, AgentOp, DelegateOp, IntentStep;
    var front, last := w[..|w| - 1], w[|w| - 1];
    AgentColumns(w, id);
    AgentColumns(front, id);
    FirstAndLast(w, OfRegistration(id));
    FirstAndLast(front, OfRegistration(id));
    LastAfterStep(w, OfStake(id), FirstOf(w, OfRegistration(id)).value);
    AgentStep(last.log, last.now, FoldLogs(front).agents, id);
    if id in FoldLogs(front).agents {
      AgentOriginColumns(front, id);
    }
  }

  /** A delegate row holds what the last log of its key said, with the clock of that handling. */
  lemma {:induction false} DelegateRow(w: seq<Handled>, key: DelegateKey)
    ensures var last := LastOf(w, OfDelegate(key));
            (key in FoldLogs(w).delegates <==> last.Some?) &&
            (last.Some? ==>
              var main, h := FoldLogs(w).delegates[key].main, w[last.value];
              main.approved == h.log.event.approved && main.block == h.log.block && main.createdAt == h.now)
    decreases |w|
  {
    hide ReceiptOp, ChallengeOp, AgentOp, IntentStep;
    if w != [] {
      DelegateRow(w[..|w| - 1], key);
    }
  }

  // ----- intents

  predicate IntentFrom(row: IntentRow, h: Handled) {
    h.log.event.IntentCommitted? &&
    row.owner == h.log.event.committer && row.manifestUri == h.log.event.manifestUri &&
    row.block == h.log.block && row.tx == h.log.tx && row.index == h.log.index && row.createdAt == h.now
  }

  /** Deactivating rows changes nothing else in them. */
  lemma DeactivateKeepsColumns(t: Intents, owner: nat, hash: nat, h: Handled)
    ensures hash in Deactivate(t, owner) <==> hash in t
    ensures hash in t && IntentFrom(t[hash], h) ==> IntentFrom(Deactivate(t, owner)[hash], h)
  {
  }

  /** A commit adds its row when it was not handled before, and otherwise no row. */
  lemma CommitStep(front: seq<Handled>, last: Handled)
    requires last.log.event.IntentCommitted?
    requires UniqueProvenance(LogsOf(front + [last])) && FreshHashes(LogsOf(front + [last]))
    ensures var t := FoldLogs(front).intents;
            var off := Deactivate(t, last.log.event.committer);
            Committed(t, last.log, last.now) ==
            if last.log in LogsOf(front) then off else off[last.log.event.committedHash := NewIntent(last.log, last.now)]
  {
    hide Deactivate, UniqueProvenance, FreshHashes, FoldLogs, LogsOf;
    var t := FoldLogs(front).intents;
    DeactivateKeepsProvenance(t, last.log.event.committer, last.log.tx, last.log.index);
    HandledProvenance(front, last);
  }

  lemma HandledProvenance(front: seq<Handled>, last: Handled)
    requires last.log.event.IntentCommitted?
    requires UniqueProvenance(LogsOf(front + [last])) && FreshHashes(LogsOf(front + [last]))
    ensures HasProvenance(FoldLogs(front).intents, last.log.tx, last.log.index) <==> last.log in LogsOf(front)
  {
    var ls := LogsOf(front);
    assert LogsOf(front + [last]) == ls + [last.log];
    EraseFold(front);
    ErasedProvenance(FoldLogs(front).intents, last.log.tx, last.log.index);
    assert EraseIntents(FoldLogs(front).intents) == Clean(ls).intents;
    hide FoldLogs, LogsOf, Clean, UniqueProvenance, FreshHashes, HasProvenance;
    SubLogs(ls + [last.log], ls);
    IntentRows(ls);
    RowsMatchProvenance(Clean(ls).intents, ls, last.log);
  }

  /** A hash committed by a log of the handled ones is committed by no other. */
  lemma FirstIsHandled(front: seq<Handled>, last: Handled)
    requires last.log.event.IntentCommitted? && FreshHashes(LogsOf(front + [last]))
    ensures FirstOf(front, OfCommit(last.log.event.committedHash)).Some? <==> last.log in LogsOf(front)
  {
    var k, w := OfCommit(last.log.event.committedHash), front + [last];
    FirstAndLast(front, k);
    if FirstOf(front, k).Some? {
      var i := FirstOf(front, k).value;
      assert LogsOf(w)[i] == front[i].log && LogsOf(w)[|front|] == last.log;
      assert SameHash(front[i].log, last.log);
      assert LogsOf(front)[i] == last.log;
    }
    if last.log in LogsOf(front) {
      var i :| 0 <= i < |front| && LogsOf(front)[i] == last.log;
      assert Is(front[i].log, k);
    }
  }

  /** An intent is stored when its commit was handled, with the columns of that commit and the clock of its first handling. */
  lemma {:induction false} IntentColumns(w: seq<Handled>, hash: nat)
    requires UniqueProvenance(LogsOf(w)) && FreshHashes(LogsOf(w))
    ensures var first := FirstOf(w, OfCommit(hash));
            (hash in FoldLogs(w).intents <==> first.Some?) &&
            (first.Some? ==> IntentFrom(FoldLogs(w).intents[hash], w[first.value]))
    decreases |w|
  {
    if w != [] {
      var front, last := w[..|w| - 1], w[|w| - 1];
      var t := FoldLogs(front).intents;
      assert FoldLogs(w).intents == IntentStep(last.log, last.now, t);
      assert w == front + [last];
      hide UniqueProvenance, FreshHashes, FoldLogs, Deactivate, Committed, LogsOf;
      FrontFresh(w);
      IntentColumns(front, hash);
      match last.log.event
      case IntentCommitted(h, owner, _) =>
        CommitStep(front, last);
        FirstIsHandled(front, last);
        DeactivateColumns(t, owner, hash, front);
      case IntentRevoked(owner) =>
        DeactivateColumns(t, owner, hash, front);
      case _ =>
    }
  }

  lemma DeactivateColumns(t: Intents, owner: nat, hash: nat, front: seq<Handled>)
    ensures hash in Deactivate(t, owner) <==> hash in t
    ensures var first := FirstOf(front, OfCommit(hash));
            first.Some? && hash in t && IntentFrom(t[hash], front[first.value]) ==>
            IntentFrom(Deactivate(t, owner)[hash], front[first.value])
  {
    hide FirstOf, IntentFrom, Is, Deactivate;
    var first := FirstOf(front, OfCommit(hash));
    if first.Some? {
      DeactivateKeepsColumns(t, owner, hash, front[first.value]);
    } else {
      DeactivateKeys(t, owner);
    }
  }

  lemma FrontFresh(w: seq<Handled>)
    requires w != [] && UniqueProvenance(LogsOf(w)) && FreshHashes(LogsOf(w))
    ensures UniqueProvenance(LogsOf(w[..|w| - 1])) && FreshHashes(LogsOf(w[..|w| - 1]))
  {
    var ls, front := LogsOf(w), LogsOf(w[..|w| - 1]);
    forall l | l in front
      ensures l in ls
    {
      var i :| 0 <= i < |front| && front[i] == l;
      assert ls[i] == l;
    }
    SubLogs(ls, front);
  }

  lemma {:induction false} ActiveHashAt(w: seq<Handled>, owner: nat)
    ensures var last := LastOf(w, OfOwner(owner));
            ActiveHash(LogsOf(w), owner) ==
            if last.Some? && w[last.value].log.event.IntentCommitted? && w[last.value].log !in LogsOf(w[..last.value])
            then Some(w[last.value].log.event.committedHash) else None
    decreases |w|
  {
    if w != [] {
      var front, last := w[..|w| - 1], LastOf(w, OfOwner(owner));
      assert LogsOf(w)[..|w| - 1] == LogsOf(front);
      ActiveHashAt(front, owner);
      if last.Some? && last.value < |front| {
        assert w[..last.value] == front[..last.value];
      }
      hide LogsOf;
    }
  }

  /**
   An owner's row is active exactly when the last log of the owner's intents is the commit of
   that row and had not been handled before. After a revocation no row is.
   */
  lemma ActiveRow(w: seq<Handled>, owner: nat, h: nat)
    requires UniqueProvenance(LogsOf(w)) && FreshHashes(LogsOf(w))
    ensures var last := LastOf(w, OfOwner(owner));
            IsActive(FoldLogs(w).intents, owner, h) <==>
            last.Some? && Is(w[last.value].log, OfCommit(h)) && w[last.value].log !in LogsOf(w[..last.value])
  {
    hide UniqueProvenance, FreshHashes, FoldLogs, LogsOf, ActiveHash, IsActive, LastOf;
    ActiveIsActiveHash(w, owner, h);
    ActiveHashAt(w, owner);
  }
}
