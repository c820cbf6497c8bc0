/**
 The intents table over every run of the indexer, crashes and replays included: at most one
 active row per owner, and which intent it is.
 */
module IntentRuns {
  import opened Replay
  import opened IndexerTables
  import opened IndexerRuns

  predicate IsIntentOf(log: Log, owner: nat) {
    match log.event
    case IntentCommitted(_, o, _) => o == owner
    case IntentRevoked(o) => o == owner
    case _ => false
  }

  /** What the chain holds after an intent event: the committed hash, or nothing. */
  function HashOf(log: Log): Option<nat> {
    match log.event
    case IntentCommitted(h, _, _) => Some(h)
    case _ => None
  }

  /** The chain's current intent of an owner after the given logs. */
  function ChainIntent(ls: seq<Log>, owner: nat): Option<nat> {
    if ls == [] then None
    else if IsIntentOf(ls[|ls| - 1], owner) then HashOf(ls[|ls| - 1])
    else ChainIntent(ls[..|ls| - 1], owner)
  }

  /** The same, except that a commit handled before leaves the owner without an intent. */
  function ActiveHash(w: seq<Log>, owner: nat): Option<nat> {
    if w == [] then None
    else
      var front, last := w[..|w| - 1], w[|w| - 1];
      if !IsIntentOf(last, owner) then ActiveHash(front, owner)
      else if last in front then None
      else HashOf(last)
  }

  /** Transaction and index identify a log. */
  predicate UniqueProvenance(s: seq<Log>) {
    forall a, b :: a in s && b in s && a.tx == b.tx && a.index == b.index ==> a == b
  }

  predicate SameHash(a: Log, b: Log) {
    a.event.IntentCommitted? && b.event.IntentCommitted? && a.event.committedHash == b.event.committedHash
  }

  /** No intent hash is committed twice. */
  predicate FreshHashes(s: seq<Log>) {
    forall a, b :: a in s && b in s && SameHash(a, b) ==> a == b
  }

  predicate RowOf(intents: Intents, log: Log) {
    log.event.IntentCommitted? ==>
      log.event.committedHash in intents &&
      var row := intents[log.event.committedHash];
      row.owner == log.event.committer && row.block == log.block && row.tx == log.tx && row.index == log.index
  }

  predicate FromLog(w: seq<Log>, h: nat) {
    exists l :: l in w && l.event.IntentCommitted? && l.event.committedHash == h
  }

  /** The rows of the intents table are exactly those of the commits handled. */
  predicate RowsMatch(intents: Intents, w: seq<Log>) {
    (forall l :: l in w ==> RowOf(intents, l)) && (forall h :: h in intents ==> FromLog(w, h))
  }

  lemma RowsMatchProvenance(intents: Intents, w: seq<Log>, log: Log)
    requires RowsMatch(intents, w) && UniqueProvenance(w + [log]) && log.event.IntentCommitted?
    ensures HasProvenance(intents, log.tx, log.index) <==> log in w
  {
    if HasProvenance(intents, log.tx, log.index) {
      var h :| h in intents && intents[h].tx == log.tx && intents[h].index == log.index;
      assert FromLog(w, h);
      var l :| l in w && l.event.IntentCommitted? && l.event.committedHash == h;
      assert RowOf(intents, l);
      assert l in w + [log] && log in w + [log];
    }
    if log in w {
      assert RowOf(intents, log);
    }
  }

  lemma SubLogs(s: seq<Log>, w: seq<Log>)
    requires forall l :: l in w ==> l in s
    ensures UniqueProvenance(s) ==> UniqueProvenance(w)
    ensures FreshHashes(s) ==> FreshHashes(w)
  {
  }

  lemma FrontIsSub(w: seq<Log>)
    requires w != []
    ensures forall l :: l in w[..|w| - 1] ==> l in w
    ensures forall l :: l in w <==> l in w[..|w| - 1] || l == w[|w| - 1]
    ensures w == w[..|w| - 1] + [w[|w| - 1]]
  {
    assert w == w[..|w| - 1] + [w[|w| - 1]];
  }

  /** With fresh hashes and unique provenance, the intents table is explained by the commits handled. */
  lemma {:induction false} IntentRows(w: seq<Log>)
    requires UniqueProvenance(w) && FreshHashes(w)
    ensures RowsMatch(Clean(w).intents, w)
    decreases |w|
  {
    if w != [] {
      var front, last := w[..|w| - 1], w[|w| - 1];
      FrontIsSub(w);
      SubLogs(w, front);
      IntentRows(front);
      var t := Clean(front).intents;
      if last.event.IntentCommitted? {
        var off := Deactivate(t, last.event.committer);
        RowsMatchProvenance(t, front, last);
        DeactivateKeepsProvenance(t, last.event.committer, last.tx, last.index);
        RowsMatchStep(t, Clean(w).intents, front, last);
      } else {
        RowsMatchStep(t, Clean(w).intents, front, last);
      }
    }
  }

  lemma RowsMatchStep(t: Intents, t': Intents, front: seq<Log>, last: Log)
    requires RowsMatch(t, front) && UniqueProvenance(front + [last]) && FreshHashes(front + [last])
    requires t' == IntentStep(last, 0, t)
    requires last.event.IntentCommitted? ==>
      (HasProvenance(Deactivate(t, last.event.committer), last.tx, last.index) <==> last in front)
    ensures RowsMatch(t', front + [last])
  {
    var w := front + [last];
    forall l | l in w
      ensures RowOf(t', l)
    {
      if l in front {
        assert RowOf(t, l);
      }
      if l.event.IntentCommitted? && last.event.IntentCommitted? && l.event.committedHash == last.event.committedHash {
        assert l in w && last in w;
      }
    }
    forall h | h in t'
      ensures FromLog(w, h)
    {
      if h in t {
        assert FromLog(front, h);
        var l :| l in front && l.event.IntentCommitted? && l.event.committedHash == h;
        assert l in w;
      } else {
        assert last in w && last.event.IntentCommitted? && last.event.committedHash == h;
      }
    }
  }

  lemma RevokeKeepsRule(t: Intents, h: nat, owner: nat)
    requires h in t
    ensures h in Deactivate(t, owner) && Deactivate(t, owner)[h].owner == t[h].owner
    ensures Deactivate(t, owner)[h].active <==> t[h].active && t[h].owner != owner
  {
  }

  lemma ActiveAfterCommit(t: Intents, front: seq<Log>, last: Log, h: nat)
    requires last.event.IntentCommitted? && h in Committed(t, last, 0)
    requires HasProvenance(t, last.tx, last.index) <==> last in front
    requires last !in front ==> last.event.committedHash !in t
    ensures var row := Committed(t, last, 0)[h];
            if row.owner == last.event.committer then row.active <==> last !in front && last.event.committedHash == h
            else h in t && t[h].owner == row.owner && (row.active <==> t[h].active)
  {
    var owner := last.event.committer;
    DeactivateKeepsProvenance(t, owner, last.tx, last.index);
    if h in t {
      RevokeKeepsRule(t, h, owner);
    }
    hide HasProvenance;
  }

  lemma ActiveHashStep(front: seq<Log>, last: Log, owner: nat)
    ensures ActiveHash(front + [last], owner) ==
            if !IsIntentOf(last, owner) then ActiveHash(front, owner)
            else if last in front then None
            else HashOf(last)
  {
    assert (front + [last])[..|front|] == front;
  }

  lemma ActiveRowsCommit(front: seq<Log>, last: Log, h: nat)
    requires UniqueProvenance(front + [last]) && FreshHashes(front + [last]) && last.event.IntentCommitted?
    requires var t := Clean(front).intents; h in t ==> (t[h].active <==> ActiveHash(front, t[h].owner) == Some(h))
    requires h in Committed(Clean(front).intents, last, 0)
    ensures var row := Committed(Clean(front).intents, last, 0)[h];
            row.active <==> ActiveHash(front + [last], row.owner) == Some(h)
  {
    var t := Clean(front).intents;
    SubLogs(front + [last], front);
    IntentRows(front);
    RowsMatchProvenance(t, front, last);
    NewHash(t, front, last);
    ActiveAfterCommit(t, front, last, h);
    hide Clean, Committed, RowsMatch, UniqueProvenance, FreshHashes, HasProvenance;
    var row := Committed(t, last, 0)[h];
    ActiveHashStep(front, last, row.owner);
  }

  /** The active rows of an owner: the one `ActiveHash` names, if any, and no other. */
  lemma {:induction false} ActiveRows(w: seq<Log>, h: nat)
    requires UniqueProvenance(w) && FreshHashes(w) && h in Clean(w).intents
    ensures var row := Clean(w).intents[h];
            row.active <==> ActiveHash(w, row.owner) == Some(h)
    decreases |w|
  {
    if w != [] {
      var front, last := w[..|w| - 1], w[|w| - 1];
      FrontIsSub(w);
      SubLogs(w, front);
      var t := Clean(front).intents;
      hide UniqueProvenance, FreshHashes, Deactivate, Committed;
      if h in t {
        ActiveRows(front, h);
      }
      match last.event
      case IntentCommitted(_, _, _) =>
        ActiveRowsCommit(front, last, h);
      case IntentRevoked(owner) =>
        if h in t {
          RevokeKeepsRule(t, h, owner);
        }
        DeactivateKeys(t, owner);
      case _ =>
    }
  }

  lemma DeactivateKeys(t: Intents, owner: nat)
    ensures Deactivate(t, owner).Keys == t.Keys
  {
  }

  /** A commit not handled before brings a hash the table does not hold. */
  lemma NewHash(t: Intents, front: seq<Log>, last: Log)
    requires RowsMatch(t, front) && FreshHashes(front + [last]) && last.event.IntentCommitted?
    ensures last !in front ==> last.event.committedHash !in t
  {
    if last.event.committedHash in t {
      assert FromLog(front, last.event.committedHash);
      var l :| l in front && l.event.IntentCommitted? && l.event.committedHash == last.event.committedHash;
      assert l in front + [last] && last in front + [last];
    }
  }

  lemma {:induction false} ActiveHashHandled(w: seq<Log>, owner: nat)
    ensures var h := ActiveHash(w, owner);
            h.Some? ==> exists l :: l in w && l.event.IntentCommitted? && l.event.committer == owner &&
                                    l.event.committedHash == h.value
    decreases |w|
  {
    if w != [] {
      FrontIsSub(w);
      ActiveHashHandled(w[..|w| - 1], owner);
    }
  }

  /**
   Every reachable state: an intent is active for an owner exactly when `ActiveHash` of the
   logs handled names it. So there is at most one.
   */
  lemma ActiveIsActiveHash(w: seq<Handled>, owner: nat, h: nat)
    requires UniqueProvenance(LogsOf(w)) && FreshHashes(LogsOf(w))
    ensures IsActive(FoldLogs(w).intents, owner, h) <==> ActiveHash(LogsOf(w), owner) == Some(h)
  {
    EraseFold(w);
    var ls := LogsOf(w);
    var t := Clean(ls).intents;
    assert EraseIntents(FoldLogs(w).intents) == t;
    hide UniqueProvenance, FreshHashes, FoldLogs, Clean, LogsOf, ActiveHash;
    if h in t {
      ActiveRows(ls, h);
    }
    if ActiveHash(ls, owner) == Some(h) {
      ActiveHashHandled(ls, owner);
      IntentRows(ls);
      var l :| l in ls && l.event.IntentCommitted? && l.event.committer == owner && l.event.committedHash == h;
      assert RowOf(t, l);
    }
  }

  lemma CommitLeavesOne(t: Intents, log: Log, now: int, owner: nat, h: nat)
    requires log.event.IntentCommitted? && IsActive(Committed(t, log, now), owner, h)
    ensures if owner == log.event.committer then h == log.event.committedHash else IsActive(t, owner, h)
  {
  }

  /** Every reachable state has at most one active row per owner, whatever has been handled. */
  lemma {:induction false} AtMostOneActive(w: seq<Handled>, owner: nat, h: nat, g: nat)
    requires IsActive(FoldLogs(w).intents, owner, h) && IsActive(FoldLogs(w).intents, owner, g)
    ensures h == g
    decreases |w|
  {
    var front, last := w[..|w| - 1], w[|w| - 1];
    var t := FoldLogs(front).intents;
    hide Committed;
    match last.log.event
    case IntentCommitted(_, committer, _) =>
      CommitLeavesOne(t, last.log, last.now, owner, h);
      CommitLeavesOne(t, last.log, last.now, owner, g);
      if owner != committer {
        AtMostOneActive(front, owner, h, g);
      }
    case _ =>
      AtMostOneActive(front, owner, h, g);
  }

  // ----- the latest intent event of every owner, as a table

  function OwnerOp(log: Log): Op<nat, (), Log, ()> {
    match log.event
    case IntentCommitted(_, owner, _) => Put(owner, (), log)
    case IntentRevoked(owner) => Put(owner, (), log)
    case _ => Skip
  }

  function Latest(ls: seq<Log>): Table<nat, (), Log, ()> {
    Fold(Map(OwnerOp, ls), (), map[])
  }

  lemma LatestStep(ls: seq<Log>, owner: nat)
    requires ls != []
    ensures var front, last := ls[..|ls| - 1], ls[|ls| - 1];
            if IsIntentOf(last, owner) then owner in Latest(ls) && Latest(ls)[owner].main == last
            else (owner in Latest(ls) <==> owner in Latest(front)) &&
                 (owner in Latest(ls) ==> Latest(ls)[owner].main == Latest(front)[owner].main)
  {
    MapFront(OwnerOp, ls, |ls| - 1);
    assert Latest(ls) == Apply(OwnerOp(ls[|ls| - 1]), (), Latest(ls[..|ls| - 1]));
    hide Fold, Map, Latest;
  }

  lemma {:induction false} LatestIsChain(ls: seq<Log>, owner: nat)
    ensures ChainIntent(ls, owner) == if owner in Latest(ls) then HashOf(Latest(ls)[owner].main) else None
    ensures owner in Latest(ls) ==> Latest(ls)[owner].main in ls && IsIntentOf(Latest(ls)[owner].main, owner)
    decreases |ls|
  {
    if ls != [] {
      hide Latest;
      LatestIsChain(ls[..|ls| - 1], owner);
      LatestStep(ls, owner);
      FrontIsSub(ls);
    }
  }

  lemma CountStep(w: seq<Log>, log: Log)
    requires w != []
    ensures var front, last := w[..|w| - 1], w[|w| - 1];
            multiset(w)[log] == multiset(front)[log] + (if log == last then 1 else 0)
    ensures w[|w| - 1] in w[..|w| - 1] <==> multiset(w[..|w| - 1])[w[|w| - 1]] > 0
  {
    assert w == w[..|w| - 1] + [w[|w| - 1]];
  }

  /** The owner's latest intent event has been handled only once. */
  predicate LatestHandledOnce(w: seq<Log>, owner: nat) {
    owner in Latest(w) && multiset(w)[Latest(w)[owner].main] == 1
  }

  /** An active row is the latest event's, provided that event was handled once. */
  lemma {:induction false} ActiveIsLatest(w: seq<Log>, owner: nat)
    ensures ActiveHash(w, owner) ==
            if LatestHandledOnce(w, owner) then HashOf(Latest(w)[owner].main) else None
    decreases |w|
  {
    if w == [] {
    } else {
      hide Latest;
      var front, last := w[..|w| - 1], w[|w| - 1];
      ActiveIsLatest(front, owner);
      LatestStep(w, owner);
      if owner in Latest(w) {
        CountStep(w, Latest(w)[owner].main);
      }
      LatestIsChain(front, owner);
    }
  }

  lemma LatestConverges(s: seq<Log>, run: seq<Attempt>)
    requires ValidRun(run, |s|) && Farthest(run) == Cursor(run) && Cursor(run) <= |s|
    ensures Latest(Word(s, run)) == Latest(s[..Cursor(run)])
  {
    hide PutFirst, Fold, Map, ValidRun, Cursor, Farthest, Word;
    MapWord(OwnerOp, s, run);
    OwnersOnlyPut(s);
    Converges(Map(OwnerOp, s), run, ());
    MapFront(OwnerOp, s, Cursor(run));
  }

  lemma OwnersOnlyPut(s: seq<Log>)
    ensures PutFirst(Map(OwnerOp, s))
  {
    var ops := Map(OwnerOp, s);
    forall i | 0 <= i < |ops|
      ensures !ops[i].Patch?
    {
      assert ops[i] == OwnerOp(s[i]);
    }
  }

  /**
   When the cursor has caught up after crashes: an intent is active exactly when it is the
   chain's current one and its commit was handled only once. So an active row never misleads,
   but an intent whose batch was replayed is not active.
   */
  lemma IntentsAfterCrashes(s: seq<Log>, run: seq<Attempt>, w: seq<Handled>, owner: nat, h: nat)
    requires ValidRun(run, |s|) && Farthest(run) == Cursor(run) <= |s|
    requires LogsOf(w) == Word(s, run) && UniqueProvenance(s) && FreshHashes(s)
    ensures IsActive(FoldLogs(w).intents, owner, h) <==>
            ChainIntent(s[..Cursor(run)], owner) == Some(h) && LatestHandledOnce(LogsOf(w), owner)
  {
    hide LogsOf, FoldLogs, IsActive, UniqueProvenance, FreshHashes, Latest, ChainIntent;
    WordFromStream(s, run);
    SubLogs(s, LogsOf(w));
    ActiveIsActiveHash(w, owner, h);
    LatestConverges(s, run);
    ActiveIsLatest(LogsOf(w), owner);
    LatestIsChain(s[..Cursor(run)], owner);
  }

  lemma {:induction false} WordFromStream(s: seq<Log>, run: seq<Attempt>)
    requires ValidRun(run, |s|)
    ensures forall l :: l in Word(s, run) ==> l in s
    decreases |run|
  {
    if run != [] {
      WordFromStream(s, run[..|run| - 1]);
    }
  }

  predicate NoRepeats(s: seq<Log>) {
    forall i, j :: 0 <= i < j < |s| ==> s[i] != s[j]
  }

  predicate FailureFree(run: seq<Attempt>) {
    forall i :: 0 <= i < |run| ==> run[i].committed
  }

  lemma {:induction false} FailureFreeWord(s: seq<Log>, run: seq<Attempt>)
    requires ValidRun(run, |s|) && FailureFree(run)
    ensures Cursor(run) <= |s| && Word(s, run) == s[..Cursor(run)]
    decreases |run|
  {
    if run != [] {
      var front := run[..|run| - 1];
      FailureFreeWord(s, front);
      assert s[..Cursor(front)] + s[Cursor(front)..run[|run| - 1].reach] == s[..run[|run| - 1].reach];
    }
  }

  lemma {:induction false} ActiveWithoutRepeats(w: seq<Log>, owner: nat)
    requires NoRepeats(w)
    ensures ActiveHash(w, owner) == ChainIntent(w, owner)
    decreases |w|
  {
    if w != [] {
      assert w[|w| - 1] !in w[..|w| - 1];
      ActiveWithoutRepeats(w[..|w| - 1], owner);
    }
  }

  /** Without failures the active intent is the chain's current intent. */
  lemma IntentsWithoutFailures(s: seq<Log>, run: seq<Attempt>, w: seq<Handled>, owner: nat, h: nat)
    requires ValidRun(run, |s|) && FailureFree(run) && NoRepeats(s)
    requires LogsOf(w) == Word(s, run) && UniqueProvenance(s) && FreshHashes(s)
    ensures Cursor(run) <= |s|
    ensures IsActive(FoldLogs(w).intents, owner, h) <==> ChainIntent(s[..Cursor(run)], owner) == Some(h)
  {
    FailureFreeWord(s, run);
    hide LogsOf, FoldLogs, IsActive, UniqueProvenance, FreshHashes, ChainIntent, ActiveHash;
    WordFromStream(s, run);
    SubLogs(s, LogsOf(w));
    ActiveIsActiveHash(w, owner, h);
    ActiveWithoutRepeats(s[..Cursor(run)], owner);
  }

  lemma CrashedRun(log: Log)
    ensures var run := [Attempt(1, false), Attempt(1, true)];
            ValidRun(run, 1) && Farthest(run) == Cursor(run) == 1 && Word([log], run) == [log, log]
  {
    var run, first := [Attempt(1, false), Attempt(1, true)], [Attempt(1, false)];
    assert run[..1] == first && first[..0] == [];
    assert ValidRun(first, 1) && Cursor(first) == 0 && Farthest(first) == 1;
    assert Word([log], first) == [log];
  }

  /**
   One crash after an IntentCommitted loses the intent: when the retry has succeeded the
   chain has it and the table has no active row.
   */
  lemma CrashLosesIntent(log: Log, run: seq<Attempt>, w: seq<Handled>, h: nat)
    requires log.event.IntentCommitted? && run == [Attempt(1, false), Attempt(1, true)]
    requires ValidRun(run, 1) ==> LogsOf(w) == Word([log], run)
    ensures ValidRun(run, 1) && Farthest(run) == Cursor(run) == 1
    ensures ChainIntent([log], log.event.committer) == Some(log.event.committedHash)
    ensures !IsActive(FoldLogs(w).intents, log.event.committer, h)
  {
    CrashedRun(log);
    hide FoldLogs, Word, ValidRun, Cursor, Farthest, LogsOf;
    assert LogsOf(w)[..1] == [log];
    ActiveIsActiveHash(w, log.event.committer, h);
  }
}
