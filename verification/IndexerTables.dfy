/**
 The tables the chain indexer fills, the SQL statements of services/infra/src/store on
 them (SQLite branch), and `handleLog` of services/infra/src/indexer/decoder.ts.
 Addresses, hashes and identifiers are the numbers their texts denote.
 */
module IndexerTables {
  import opened Replay

  datatype Option<+T> = None | Some(value: T)

  // ----- chain events

  datatype Event =
    | ActionReceipt(receiptId: nat, owner: nat, agentId: nat, intentHash: nat, target: nat, token: nat,
                    amount: nat, callDataHash: nat, contextDigest: nat, nonce: nat, timestamp: nat)
    | ReceiptStored
    | TraceURIStored(traceReceipt: nat, traceUri: string)
    | AgentDelegateSet(delegator: nat, delegateAgent: nat, delegate: nat, approved: bool)
    | ChallengeFiled(challengeId: nat, challengedReceipt: nat, challenger: nat)
    | ChallengeResolved(resolvedId: nat, uphold: bool, payout: nat)
    | IntentCommitted(committedHash: nat, committer: nat, manifestUri: string)
    | IntentRevoked(revoker: nat)
    | AgentRegistered(registeredAgent: nat, operator: nat, metadataUri: string)
    | AgentStaked(stakedAgent: nat, newStake: nat)
    | Undecodable

  /** A log with its provenance and the timestamp of its block. */
  datatype Log = Log(event: Event, block: nat, tx: nat, index: nat, blockTimestamp: nat)

  // ----- tables

  datatype ReceiptCols = ReceiptCols(owner: nat, agentId: nat, intentHash: nat, target: nat, token: nat,
                                     amount: nat, callDataHash: nat, contextDigest: nat, nonce: nat, ts: nat,
                                     block: nat, tx: nat, index: nat)

  datatype Status = FILED | UPHELD | REJECTED

  datatype FiledCols = FiledCols(receiptId: nat, challenger: nat, filedBlock: nat, filedTx: nat, filedAt: nat)

  /** The columns resolveChallenge sets; a new challenge is FILED with the others null. */
  datatype ResolvedCols = ResolvedCols(status: Status, payout: Option<nat>, resolvedBlock: Option<nat>,
                                       resolvedTx: Option<nat>, resolvedAt: Option<nat>)

  const UNRESOLVED := ResolvedCols(FILED, None, None, None, None)

  datatype AgentOrigin = AgentOrigin(block: nat, tx: nat, createdAt: int)
  datatype AgentCols = AgentCols(operator: nat, metadataUri: string)

  datatype DelegateKey = DelegateKey(owner: nat, agentId: nat, delegate: nat, index: nat, tx: nat)
  datatype DelegateCols = DelegateCols(approved: bool, block: nat, createdAt: int)

  datatype IntentRow = IntentRow(owner: nat, manifestUri: string, active: bool,
                                 block: nat, tx: nat, index: nat, createdAt: int)

  /** receipts: created_at / the upserted columns / trace_uri */
  type Receipts = Table<nat, int, ReceiptCols, Option<string>>
  type Challenges = Table<nat, (), FiledCols, ResolvedCols>
  /** agents: block, tx, created_at / operator, metadata_uri / total_stake */
  type Agents = Table<nat, AgentOrigin, AgentCols, nat>
  type Delegates = Table<DelegateKey, (), DelegateCols, ()>
  type Intents = map<nat, IntentRow>

  datatype Tables = Tables(receipts: Receipts, challenges: Challenges, agents: Agents,
                           delegates: Delegates, intents: Intents)

  const EMPTY := Tables(map[], map[], map[], map[], map[])

  // ----- what each log does to each table

  function ReceiptOp(log: Log, now: int): Op<nat, int, ReceiptCols, Option<string>> {
    match log.event
    case ActionReceipt(id, owner, agentId, intentHash, target, token, amount, callDataHash, contextDigest, nonce, ts) =>
      Put(id, now, ReceiptCols(owner, agentId, intentHash, target, token, amount, callDataHash, contextDigest,
                               nonce, ts, log.block, log.tx, log.index))
    case TraceURIStored(id, uri) => Patch(id, Some(uri))
    case _ => Skip
  }

  function ChallengeOp(log: Log): Op<nat, (), FiledCols, ResolvedCols> {
    match log.event
    case ChallengeFiled(id, receiptId, challenger) =>
      Put(id, (), FiledCols(receiptId, challenger, log.block, log.tx, log.blockTimestamp))
    case ChallengeResolved(id, uphold, payout) =>
      Patch(id, ResolvedCols(if uphold then UPHELD else REJECTED, Some(payout),
                             Some(log.block), Some(log.tx), Some(log.blockTimestamp)))
    case _ => Skip
  }

  function AgentOp(log: Log, now: int): Op<nat, AgentOrigin, AgentCols, nat> {
    match log.event
    case AgentRegistered(id, operator, metadataUri) =>
      Put(id, AgentOrigin(log.block, log.tx, now), AgentCols(operator, metadataUri))
    case AgentStaked(id, newStake) => Patch(id, newStake)
    case _ => Skip
  }

  function DelegateOp(log: Log, now: int): Op<DelegateKey, (), DelegateCols, ()> {
    match log.event
    case AgentDelegateSet(owner, agentId, delegate, approved) =>
      Put(DelegateKey(owner, agentId, delegate, log.index, log.tx), (), DelegateCols(approved, log.block, now))
    case _ => Skip
  }

  /** UPDATE intents SET active = 0 WHERE owner = ? AND active = 1 */
  function Deactivate(intents: Intents, owner: nat): Intents {
    map h | h in intents :: if intents[h].owner == owner then intents[h].(active := false) else intents[h]
  }

  predicate HasProvenance(intents: Intents, tx: nat, index: nat) {
    exists h :: h in intents && intents[h].tx == tx && intents[h].index == index
  }

  function NewIntent(log: Log, now: int): IntentRow
    requires log.event.IntentCommitted?
  {
    IntentRow(log.event.committer, log.event.manifestUri, true, log.block, log.tx, log.index, now)
  }

  /** The transaction of insertIntentCommitted, when it does not fail. */
  function Committed(intents: Intents, log: Log, now: int): Intents
    requires log.event.IntentCommitted?
  {
    var off := Deactivate(intents, log.event.committer);
    if HasProvenance(off, log.tx, log.index) then off
    else off[log.event.committedHash := NewIntent(log, now)]
  }

  function IntentStep(log: Log, now: int, intents: Intents): Intents {
    match log.event
    case IntentCommitted(_, _, _) => Committed(intents, log, now)
    case IntentRevoked(owner) => Deactivate(intents, owner)
    case _ => intents
  }

  /** UNIQUE(tx_hash, log_index) of receipts: another receipt already has the log's provenance. */
  predicate ReceiptConflict(receipts: Receipts, id: nat, tx: nat, index: nat) {
    exists k :: k in receipts && k != id && receipts[k].main.tx == tx && receipts[k].main.index == index
  }

  /**
   The log's statement fails on a constraint no conflict clause covers: for a receipt, the
   unique provenance; for an intent, the primary key, which is only reached when no row has
   the log's provenance.
   */
  predicate Violates(log: Log, t: Tables) {
    match log.event
    case ActionReceipt(id, _, _, _, _, _, _, _, _, _, _) => ReceiptConflict(t.receipts, id, log.tx, log.index)
    case IntentCommitted(h, _, _) => !HasProvenance(t.intents, log.tx, log.index) && h in t.intents
    case _ => false
  }

  /** The tables after a log whose statement does not fail. */
  function Step(log: Log, now: int, t: Tables): Tables {
    Tables(
      Apply(ReceiptOp(log, now), None, t.receipts),
      Apply(ChallengeOp(log), UNRESOLVED, t.challenges),
      Apply(AgentOp(log, now), 0, t.agents),
      Apply(DelegateOp(log, now), (), t.delegates),
      IntentStep(log, now, t.intents))
  }

  lemma DeactivateKeepsProvenance(intents: Intents, owner: nat, tx: nat, index: nat)
    ensures HasProvenance(Deactivate(intents, owner), tx, index) == HasProvenance(intents, tx, index)
  {
    var off := Deactivate(intents, owner);
    if HasProvenance(intents, tx, index) {
      var h :| h in intents && intents[h].tx == tx && intents[h].index == index;
      assert h in off && off[h].tx == tx && off[h].index == index;
    }
    if HasProvenance(off, tx, index) {
      var h :| h in off && off[h].tx == tx && off[h].index == index;
      assert h in intents && intents[h].tx == tx && intents[h].index == index;
    }
  }

  /** The row's intent is its owner's active one. */
  predicate IsActive(intents: Intents, owner: nat, h: nat) {
    h in intents && intents[h].owner == owner && intents[h].active
  }

  // ----- the database

  class Db {
    var receipts: Receipts
    var challenges: Challenges
    var agents: Agents
    var delegates: Delegates
    var intents: Intents
    /** meta['indexer.last_block'] */
    var lastBlock: Option<int>

    constructor ()
      ensures Contents() == EMPTY && lastBlock == None
    {
      receipts, challenges, agents, delegates, intents := map[], map[], map[], map[], map[];
      lastBlock := None;
    }

    function Contents(): Tables
      reads this
    {
      Tables(receipts, challenges, agents, delegates, intents)
    }

    /** upsertReceipt; false stands for the constraint error it throws. */
    method UpsertReceipt(id: nat, cols: ReceiptCols, now: int) returns (ok: bool)
      modifies this`receipts
      ensures ok <==> !ReceiptConflict(old(receipts), id, cols.tx, cols.index)
      ensures receipts == if ok then Apply(Put(id, now, cols), None, old(receipts)) else old(receipts)
    {
      if k :| k in receipts && k != id && receipts[k].main.tx == cols.tx && receipts[k].main.index == cols.index {
        return false;
      }
      if id in receipts {
        receipts := receipts[id := receipts[id].(main := cols)];
      } else {
        receipts := receipts[id := Row(now, cols, None)];
      }
      return true;
    }

    method SetReceiptTraceUri(id: nat, traceUri: string)
      modifies this`receipts
      ensures receipts == Apply(Patch(id, Some(traceUri)), None, old(receipts))
    {
      if id in receipts {
        receipts := receipts[id := receipts[id].(extra := Some(traceUri))];
      }
    }

    method UpsertChallengeFiled(id: nat, cols: FiledCols)
      modifies this`challenges
      ensures challenges == Apply(Put(id, (), cols), UNRESOLVED, old(challenges))
    {
      if id in challenges {
        challenges := challenges[id := challenges[id].(main := cols)];
      } else {
        challenges := challenges[id := Row((), cols, UNRESOLVED)];
      }
    }

    method ResolveChallenge(id: nat, uphold: bool, payout: nat, block: nat, tx: nat, blockTimestamp: nat)
      modifies this`challenges
      ensures challenges ==
        Apply(Patch(id, ResolvedCols(if uphold then UPHELD else REJECTED, Some(payout), Some(block), Some(tx),
                                     Some(blockTimestamp))), UNRESOLVED, old(challenges))
    {
      var status := if uphold then UPHELD else REJECTED;
      if id in challenges {
        challenges := challenges[id := challenges[id].(
          extra := ResolvedCols(status, Some(payout), Some(block), Some(tx), Some(blockTimestamp)))];
      }
    }

    method UpsertAgentRegistered(id: nat, operator: nat, metadataUri: string, block: nat, tx: nat, now: int)
      modifies this`agents
      ensures agents == Apply(Put(id, AgentOrigin(block, tx, now), AgentCols(operator, metadataUri)), 0, old(agents))
    {
      if id in agents {
        agents := agents[id := agents[id].(main := AgentCols(operator, metadataUri))];
      } else {
        agents := agents[id := Row(AgentOrigin(block, tx, now), AgentCols(operator, metadataUri), 0)];
      }
    }

    method ApplyStakeIncrease(id: nat, newStake: nat)
      modifies this`agents
      ensures agents == Apply(Patch(id, newStake), 0, old(agents))
    {
      if id in agents {
        agents := agents[id := agents[id].(extra := newStake)];
      }
    }

    /** INSERT OR REPLACE */
    method InsertDelegate(key: DelegateKey, approved: bool, block: nat, now: int)
      modifies this`delegates
      ensures delegates == Apply(Put(key, (), DelegateCols(approved, block, now)), (), old(delegates))
    {
      assert key in delegates ==> delegates[key].ins == () && delegates[key].extra == ();
      delegates := delegates[key := Row((), DelegateCols(approved, block, now), ())];
    }

    method MarkIntentRevoked(owner: nat)
      modifies this`intents
      ensures intents == Deactivate(old(intents), owner)
    {
      intents := map h | h in intents ::
        if intents[h].owner == owner && intents[h].active then intents[h].(active := false) else intents[h];
    }

    /** getActiveIntent: the active row of an owner with the highest block number. */
    method GetActiveIntent(owner: nat) returns (r: Option<nat>)
      ensures r.None? ==> forall h :: !IsActive(intents, owner, h)
      ensures r.Some? ==> IsActive(intents, owner, r.value)
      ensures r.Some? ==> forall h :: IsActive(intents, owner, h) ==> intents[h].block <= intents[r.value].block
    {
      r := None;
      var rest := intents.Keys;
      while rest != {}
        invariant rest <= intents.Keys
        invariant r.None? ==> forall h :: IsActive(intents, owner, h) ==> h in rest
        invariant r.Some? ==> IsActive(intents, owner, r.value)
        invariant r.Some? ==>
          forall h :: IsActive(intents, owner, h) ==> h in rest || intents[h].block <= intents[r.value].block
      {
        var h :| h in rest;
        rest := rest - {h};
        if intents[h].owner == owner && intents[h].active &&
          (r.None? || intents[r.value].block < intents[h].block) {
          r := Some(h);
        }
      }
    }

    /** insertIntentCommitted: both statements or, when the insert fails, neither. */
    method InsertIntentCommitted(log: Log, now: int) returns (ok: bool)
      requires log.event.IntentCommitted?
      modifies this`intents
      ensures ok <==> HasProvenance(old(intents), log.tx, log.index) || log.event.committedHash !in old(intents)
      ensures intents == if ok then Committed(old(intents), log, now) else old(intents)
    {
      var before := intents;
      DeactivateKeepsProvenance(before, log.event.committer, log.tx, log.index);
      MarkIntentRevoked(log.event.committer);
      if h :| h in intents && intents[h].tx == log.tx && intents[h].index == log.index {
        return true;
      }
      if log.event.committedHash in intents {
        intents := before;
        return false;
      }
      intents := intents[log.event.committedHash := NewIntent(log, now)];
      return true;
    }

    /**
     handleLog at clock time `now`. `ok` is false when a statement fails on a constraint, and
     then nothing has changed; `known` is the value the source returns.
     */
    method HandleLog(log: Log, now: int) returns (ok: bool, known: bool)
      modifies this`receipts, this`challenges, this`agents, this`delegates, this`intents
      ensures ok <==> !Violates(log, old(Contents()))
      ensures Contents() == if ok then Step(log, now, old(Contents())) else old(Contents())
      ensures known <==> ok && !log.event.Undecodable?
    {
      ok, known := true, true;
      match log.event
      case ActionReceipt(id, owner, agentId, intentHash, target, token, amount, callDataHash, contextDigest, nonce, ts) =>
        ok := UpsertReceipt(id, ReceiptCols(owner, agentId, intentHash, target, token, amount, callDataHash,
                                            contextDigest, nonce, ts, log.block, log.tx, log.index), now);
        known := ok;
      case ReceiptStored =>
      case TraceURIStored(id, uri) =>
        SetReceiptTraceUri(id, uri);
      case AgentDelegateSet(owner, agentId, delegate, approved) =>
        InsertDelegate(DelegateKey(owner, agentId, delegate, log.index, log.tx), approved, log.block, now);
      case ChallengeFiled(id, receiptId, challenger) =>
        UpsertChallengeFiled(id, FiledCols(receiptId, challenger, log.block, log.tx, log.blockTimestamp));
      case ChallengeResolved(id, uphold, payout) =>
        ResolveChallenge(id, uphold, payout, log.block, log.tx, log.blockTimestamp);
      case IntentCommitted(_, _, _) =>
        ok := InsertIntentCommitted(log, now);
        known := ok;
      case IntentRevoked(owner) =>
        MarkIntentRevoked(owner);
      case AgentRegistered(id, operator, metadataUri) =>
        UpsertAgentRegistered(id, operator, metadataUri, log.block, log.tx, now);
      case AgentStaked(id, newStake) =>
        ApplyStakeIncrease(id, newStake);
      case Undecodable =>
        known := false;
    }
  }
}
