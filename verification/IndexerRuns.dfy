/**
 Everything the indexer has handled, in order and with the repetitions crashes cause, and
 the tables that result. Stated for all log streams, all runs and all clock readings.
 */
module IndexerRuns {
  import opened Replay
  import opened IndexerTables

  /** A log handled at clock time `now`. */
  datatype Handled = Handled(log: Log, now: int)

  function FoldLogs(w: seq<Handled>): Tables {
    if w == [] then EMPTY
    else Step(w[|w| - 1].log, w[|w| - 1].now, FoldLogs(w[..|w| - 1]))
  }

  function LogsOf(w: seq<Handled>): (ls: seq<Log>)
    ensures |ls| == |w|
  {
    seq(|w|, i requires 0 <= i < |w| => w[i].log)
  }

  // ----- created_at aside

  function EraseReceipts(t: Receipts): Receipts {
    map k | k in t :: t[k].(ins := 0)
  }

  function EraseAgents(t: Agents): Agents {
    map k | k in t :: t[k].(ins := t[k].ins.(createdAt := 0))
  }

  function EraseDelegates(t: Delegates): Delegates {
    map k | k in t :: t[k].(main := t[k].main.(createdAt := 0))
  }

  function EraseIntents(t: Intents): Intents {
    map h | h in t :: t[h].(createdAt := 0)
  }

  /** The tables with every created_at set to 0. */
  function Erase(t: Tables): Tables {
    Tables(EraseReceipts(t.receipts), t.challenges, EraseAgents(t.agents), EraseDelegates(t.delegates),
           EraseIntents(t.intents))
  }

  /** The tables after some logs, all handled at time 0. */
  function Clean(ls: seq<Log>): Tables {
    if ls == [] then EMPTY else Step(ls[|ls| - 1], 0, Clean(ls[..|ls| - 1]))
  }

  lemma EraseReceiptStep(log: Log, now: int, t: Receipts)
    ensures EraseReceipts(Apply(ReceiptOp(log, now), None, t)) == Apply(ReceiptOp(log, 0), None, EraseReceipts(t))
  {
    assert EraseReceipts(t).Keys == t.Keys;
  }

  lemma EraseAgentStep(log: Log, now: int, t: Agents)
    ensures EraseAgents(Apply(AgentOp(log, now), 0, t)) == Apply(AgentOp(log, 0), 0, EraseAgents(t))
  {
    assert EraseAgents(t).Keys == t.Keys;
  }

  lemma EraseDelegateStep(log: Log, now: int, t: Delegates)
    ensures EraseDelegates(Apply(DelegateOp(log, now), (), t)) == Apply(DelegateOp(log, 0), (), EraseDelegates(t))
  {
    assert EraseDelegates(t).Keys == t.Keys;
  }

  lemma EraseDeactivate(t: Intents, owner: nat)
    ensures EraseIntents(Deactivate(t, owner)) == Deactivate(EraseIntents(t), owner)
  {
  }

  lemma ErasedProvenance(t: Intents, tx: nat, index: nat)
    ensures HasProvenance(EraseIntents(t), tx, index) == HasProvenance(t, tx, index)
  {
    var e := EraseIntents(t);
    if h :| h in t && t[h].tx == tx && t[h].index == index {
      assert h in e && e[h].tx == tx && e[h].index == index;
    }
    if h :| h in e && e[h].tx == tx && e[h].index == index {
      assert h in t && t[h].tx == tx && t[h].index == index;
    }
  }

  lemma EraseCommit(log: Log, now: int, t: Intents)
    requires log.event.IntentCommitted?
    ensures EraseIntents(Committed(t, log, now)) == Committed(EraseIntents(t), log, 0)
  {
    var off := Deactivate(t, log.event.committer);
    EraseDeactivate(t, log.event.committer);
    ErasedProvenance(off, log.tx, log.index);
    hide Deactivate, HasProvenance;
    assert EraseIntents(off[log.event.committedHash := NewIntent(log, now)]) ==
           EraseIntents(off)[log.event.committedHash := NewIntent(log, 0)];
  }

  lemma EraseIntentStep(log: Log, now: int, t: Intents)
    ensures EraseIntents(IntentStep(log, now, t)) == IntentStep(log, 0, EraseIntents(t))
  {
    hide Deactivate, HasProvenance, EraseIntents, Committed;
    match log.event
    case IntentCommitted(_, _, _) => EraseCommit(log, now, t);
    case IntentRevoked(owner) => EraseDeactivate(t, owner);
    case _ =>
  }

  lemma EraseStep(log: Log, now: int, t: Tables)
    ensures Erase(Step(log, now, t)) == Step(log, 0, Erase(t))
  {
    EraseReceiptStep(log, now, t.receipts);
    EraseAgentStep(log, now, t.agents);
    EraseDelegateStep(log, now, t.delegates);
    EraseIntentStep(log, now, t.intents);
    hide EraseReceipts, EraseAgents, EraseDelegates, EraseIntents, Apply, ReceiptOp, AgentOp, DelegateOp,
      ChallengeOp, IntentStep;
  }

  /** The clock shows in created_at only. */
  lemma {:induction false} EraseFold(w: seq<Handled>)
    ensures Erase(FoldLogs(w)) == Clean(LogsOf(w))
    decreases |w|
  {
    if w != [] {
      var front, last := w[..|w| - 1], w[|w| - 1];
      assert LogsOf(w)[..|w| - 1] == LogsOf(front);
      EraseFold(front);
      EraseStep(last.log, last.now, FoldLogs(front));
    }
  }

  // ----- receipts, challenges, agents and delegates as folds of their operations

  function Map<S, T>(f: S -> T, s: seq<S>): (r: seq<T>)
    ensures |r| == |s|
  {
    seq(|s|, i requires 0 <= i < |s| => f(s[i]))
  }

  function ReceiptOp0(log: Log): Op<nat, int, ReceiptCols, Option<string>> {
    ReceiptOp(log, 0)
  }

  function AgentOp0(log: Log): Op<nat, AgentOrigin, AgentCols, nat> {
    AgentOp(log, 0)
  }

  function DelegateOp0(log: Log): Op<DelegateKey, (), DelegateCols, ()> {
    DelegateOp(log, 0)
  }

  lemma MapFront<S, T>(f: S -> T, s: seq<S>, n: nat)
    requires n <= |s|
    ensures Map(f, s)[..n] == Map(f, s[..n])
  {
  }

  lemma {:induction false} ReceiptsAreFold(ls: seq<Log>)
    ensures Clean(ls).receipts == Fold(Map(ReceiptOp0, ls), None, map[])
    decreases |ls|
  {
    hide ReceiptOp, ChallengeOp, AgentOp, DelegateOp, IntentStep, Apply;
    if ls != [] {
      ReceiptsAreFold(ls[..|ls| - 1]);
      MapFront(ReceiptOp0, ls, |ls| - 1);
      assert Map(ReceiptOp0, ls)[|ls| - 1] == ReceiptOp0(ls[|ls| - 1]);
    }
  }

  lemma {:induction false} ChallengesAreFold(ls: seq<Log>)
    ensures Clean(ls).challenges == Fold(Map(ChallengeOp, ls), UNRESOLVED, map[])
    decreases |ls|
  {
    hide ReceiptOp, ChallengeOp, AgentOp, DelegateOp, IntentStep, Apply;
    if ls != [] {
      ChallengesAreFold(ls[..|ls| - 1]);
      MapFront(ChallengeOp, ls, |ls| - 1);
    }
  }

  lemma {:induction false} AgentsAreFold(ls: seq<Log>)
    ensures Clean(ls).agents == Fold(Map(AgentOp0, ls), 0, map[])
    decreases |ls|
  {
    hide ReceiptOp, ChallengeOp, AgentOp, DelegateOp, IntentStep, Apply;
    if ls != [] {
      AgentsAreFold(ls[..|ls| - 1]);
      MapFront(AgentOp0, ls, |ls| - 1);
      assert Map(AgentOp0, ls)[|ls| - 1] == AgentOp0(ls[|ls| - 1]);
    }
  }

  lemma {:induction false} DelegatesAreFold(ls: seq<Log>)
    ensures Clean(ls).delegates == Fold(Map(DelegateOp0, ls), (), map[])
    decreases |ls|
  {
    hide ReceiptOp, ChallengeOp, AgentOp, DelegateOp, IntentStep, Apply;
    if ls != [] {
      DelegatesAreFold(ls[..|ls| - 1]);
      MapFront(DelegateOp0, ls, |ls| - 1);
      assert Map(DelegateOp0, ls)[|ls| - 1] == DelegateOp0(ls[|ls| - 1]);
    }
  }

  lemma {:induction false} MapWord<S, T>(f: S -> T, s: seq<S>, run: seq<Attempt>)
    requires ValidRun(run, |s|)
    ensures Map(f, Word(s, run)) == Word(Map(f, s), run)
    decreases |run|
  {
    if run != [] {
      var front, last := run[..|run| - 1], run[|run| - 1];
      MapWord(f, s, front);
      var a, b := Word(s, front), s[Cursor(front)..last.reach];
      assert Map(f, a + b) == Map(f, a) + Map(f, b);
      assert Map(f, b) == Map(f, s)[Cursor(front)..last.reach];
    }
  }

  /**
   A row's creating event precedes the events that update it: a receipt its trace URI, a
   challenge its resolution, an agent its stake.
   */
  predicate CreatedFirst(s: seq<Log>) {
    PutFirst(Map(ReceiptOp0, s)) && PutFirst(Map(ChallengeOp, s)) && PutFirst(Map(AgentOp0, s))
  }

  lemma DelegatesOnlyPut(s: seq<Log>)
    ensures PutFirst(Map(DelegateOp0, s))
  {
    var ops := Map(DelegateOp0, s);
    forall i | 0 <= i < |ops|
      ensures !ops[i].Patch?
    {
      assert ops[i] == DelegateOp0(s[i]);
    }
  }

  lemma ReceiptsConverge(s: seq<Log>, run: seq<Attempt>)
    requires ValidRun(run, |s|) && Farthest(run) == Cursor(run) <= |s| && PutFirst(Map(ReceiptOp0, s))
    ensures Clean(Word(s, run)).receipts == Clean(s[..Cursor(run)]).receipts
  {
    hide PutFirst, Fold, Clean, Map;
    ReceiptsAreFold(Word(s, run));
    ReceiptsAreFold(s[..Cursor(run)]);
    MapWord(ReceiptOp0, s, run);
    MapFront(ReceiptOp0, s, Cursor(run));
    Converges(Map(ReceiptOp0, s), run, None);
  }

  lemma ChallengesConverge(s: seq<Log>, run: seq<Attempt>)
    requires ValidRun(run, |s|) && Farthest(run) == Cursor(run) <= |s| && PutFirst(Map(ChallengeOp, s))
    ensures Clean(Word(s, run)).challenges == Clean(s[..Cursor(run)]).challenges
  {
    hide PutFirst, Fold, Clean, Map;
    ChallengesAreFold(Word(s, run));
    ChallengesAreFold(s[..Cursor(run)]);
    MapWord(ChallengeOp, s, run);
    MapFront(ChallengeOp, s, Cursor(run));
    Converges(Map(ChallengeOp, s), run, UNRESOLVED);
  }

  lemma AgentsConverge(s: seq<Log>, run: seq<Attempt>)
    requires ValidRun(run, |s|) && Farthest(run) == Cursor(run) <= |s| && PutFirst(Map(AgentOp0, s))
    ensures Clean(Word(s, run)).agents == Clean(s[..Cursor(run)]).agents
  {
    hide PutFirst, Fold, Clean, Map;
    AgentsAreFold(Word(s, run));
    AgentsAreFold(s[..Cursor(run)]);
    MapWord(AgentOp0, s, run);
    MapFront(AgentOp0, s, Cursor(run));
    Converges(Map(AgentOp0, s), run, 0);
  }

  lemma DelegatesConverge(s: seq<Log>, run: seq<Attempt>)
    requires ValidRun(run, |s|) && Farthest(run) == Cursor(run) <= |s| && PutFirst(Map(DelegateOp0, s))
    ensures Clean(Word(s, run)).delegates == Clean(s[..Cursor(run)]).delegates
  {
    hide PutFirst, Fold, Clean, Map;
    DelegatesAreFold(Word(s, run));
    DelegatesAreFold(s[..Cursor(run)]);
    MapWord(DelegateOp0, s, run);
    MapFront(DelegateOp0, s, Cursor(run));
    Converges(Map(DelegateOp0, s), run, ());
  }

  /** Equal receipts, challenges, agents and delegates, created_at aside. */
  predicate SameButIntents(t: Tables, u: Tables) {
    var a, b := Erase(t), Erase(u);
    a.receipts == b.receipts && a.challenges == b.challenges && a.agents == b.agents && a.delegates == b.delegates
  }

  /**
   However the run crashed and whatever the clock showed, when the cursor has caught up with
   the farthest pass, the tables are those of any uninterrupted pass over the same logs.
   */
  lemma CrashesLeaveNoTrace(s: seq<Log>, run: seq<Attempt>, w: seq<Handled>, u: seq<Handled>)
    requires ValidRun(run, |s|) && Farthest(run) == Cursor(run) <= |s| && CreatedFirst(s)
    requires LogsOf(w) == Word(s, run) && LogsOf(u) == s[..Cursor(run)]
    ensures SameButIntents(FoldLogs(w), FoldLogs(u))
  {
    hide PutFirst, Fold, Clean, Map, Erase, FoldLogs, LogsOf;
    EraseFold(w);
    EraseFold(u);
    DelegatesOnlyPut(s);
    ReceiptsConverge(s, run);
    ChallengesConverge(s, run);
    AgentsConverge(s, run);
    DelegatesConverge(s, run);
  }
}
