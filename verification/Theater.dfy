/**
 The demo playback: the phase tables of apps/web/src/components/demo/demo-visualizer.ts and
 the state machine of use-demo-visualizer.ts, for one mounted scenario. A control callback,
 a timer or a changed prop is one event; React then re-runs the scheduling effect exactly
 when one of the values it depends on has changed, its cleanup first.
 */
module Theater {
  datatype Option<+T> = None | Some(value: T)

  datatype Scenario = LegitScenario | BlockedScenario | OverspendScenario
  datatype PhaseKind = Normal | GuardEvaluating | GuardWarn | Hold | Terminal
  datatype Phase = Phase(id: string, durationMs: nat, kind: PhaseKind, holdsForRealResult: bool)

  datatype Status = IdleRun | Running | Success | Failed
  /**
   What the decisions read of a run's result; texts that are absent are None. `ref` is the
   object's identity, which is what React compares: a new object is a changed result.
   */
  datatype DemoStatus = DemoStatus(ref: nat, status: Status, reasonCode: Option<string>, receiptId: Option<string>)

  const LEGIT: seq<Phase> := [
    Phase("intent", 500, Normal, false), Phase("dispatch", 650, Normal, false),
    Phase("guard-eval", 700, GuardEvaluating, false), Phase("guard-pass", 450, Normal, false),
    Phase("exec", 600, Normal, false), Phase("await", 0, Hold, true), Phase("terminal", 0, Terminal, false)]

  const BLOCKED: seq<Phase> := [
    Phase("intent", 500, Normal, false), Phase("dispatch", 650, Normal, false),
    Phase("guard-eval", 900, GuardEvaluating, false), Phase("await", 0, Hold, true),
    Phase("terminal", 0, Terminal, false)]

  const OVERSPEND: seq<Phase> := [
    Phase("intent", 500, Normal, false), Phase("dispatch", 650, Normal, false),
    Phase("guard-eval", 800, GuardWarn, false), Phase("guard-pass-amber", 500, GuardWarn, false),
    Phase("exec", 600, Normal, false), Phase("await", 0, Hold, true), Phase("terminal", 0, Terminal, false)]

  function Phases(scenario: Scenario): seq<Phase> {
    match scenario
    case LegitScenario => LEGIT
    case BlockedScenario => BLOCKED
    case OverspendScenario => OVERSPEND
  }

  /** What playback relies on: the last phase, and only it, is terminal, and a hold comes right before it. */
  predicate Playable(phases: seq<Phase>) {
    |phases| >= 2 && phases[|phases| - 2].kind == Hold && phases[|phases| - 2].holdsForRealResult &&
    phases[0].kind != Hold && (forall i :: 0 <= i < |phases| ==> (phases[i].kind == Terminal <==> i == |phases| - 1)) &&
    (forall i :: 0 <= i < |phases| ==> (phases[i].kind == Hold <==> phases[i].holdsForRealResult))
  }

  lemma PhasesArePlayable(scenario: Scenario)
    ensures Playable(Phases(scenario))
  {
  }

  /** A result is in: the source takes any status but "running" for one. */
  predicate ResultIn(r: Option<DemoStatus>) {
    r.Some? && r.value.status != Running
  }

  function CanLeaveHold(phase: Phase, r: Option<DemoStatus>): bool {
    if !phase.holdsForRealResult then true else r != None && r.value.status != Running
  }

  function Delay(phase: Phase): nat {
    if phase.durationMs > 0 then phase.durationMs else 450
  }

  // ----- the terminal frame

  datatype PresentationKind = SuccessKind | BlockedKind | OverspendKind | FailedKind
  datatype Action = OpenReceipt | Retry
  datatype Presentation = Presentation(kind: PresentationKind, title: string, action: Option<Action>,
                                       reasonCode: Option<string>)

  function ResolveTerminal(scenario: Scenario, r: Option<DemoStatus>): Presentation {
    if r == None || r.value.status == Running then
      if scenario == BlockedScenario then Presentation(BlockedKind, "Awaiting denial", None, None)
      else
        Presentation(if scenario == OverspendScenario then OverspendKind else SuccessKind, "Awaiting confirmation",
                     None, None)
    else if r.value.status == Failed then Presentation(FailedKind, "Run failed", Some(Retry), None)
    else if Truthy(r.value.reasonCode) then Presentation(BlockedKind, "Blocked at guard", None, r.value.reasonCode)
    else if scenario == OverspendScenario && Truthy(r.value.receiptId) then
      Presentation(OverspendKind, "Receipt · recourse open", Some(OpenReceipt), None)
    else if Truthy(r.value.receiptId) then Presentation(SuccessKind, "Payment executed", Some(OpenReceipt), None)
    else Presentation(SuccessKind, "Run complete", None, None)
  }

  predicate Truthy(s: Option<string>) {
    s.Some? && s.value != ""
  }

  predicate SaysAwaiting(p: Presentation) {
    |p.title| >= 8 && p.title[..8] == "Awaiting"
  }

  /** The terminal frame speaks of waiting exactly while no result is in. */
  lemma AwaitingIff(scenario: Scenario, r: Option<DemoStatus>)
    ensures SaysAwaiting(ResolveTerminal(scenario, r)) <==> !ResultIn(r)
  {
    var p := ResolveTerminal(scenario, r);
    if ResultIn(r) {
      assert p.title[0] != 'A';
      if |p.title| >= 8 {
        assert p.title[..8][0] == p.title[0];
      }
    } else {
      assert "Awaiting denial"[..8] == "Awaiting" && "Awaiting confirmation"[..8] == "Awaiting";
    }
  }

  predicate ClaimsSuccess(p: Presentation) {
    p.kind == SuccessKind || p.kind == OverspendKind
  }

  /**
   With a result in, the frame claims a success that did not happen exactly for the status
   "idle" without a reason code.
   */
  lemma ClaimsFalselyIff(scenario: Scenario, r: DemoStatus)
    requires ResultIn(Some(r))
    ensures ClaimsSuccess(ResolveTerminal(scenario, Some(r))) && r.status != Success <==>
            r.status == IdleRun && !Truthy(r.reasonCode)
  {
  }

  /**
   The frame is true to the result: it says failed exactly for a failed run, blocked exactly
   for a reason code otherwise, and a success for every other result. It speaks of a payment,
   of recourse or of opening the receipt only when there is one, and of recourse only in the
   overspend scenario.
   */
  predicate TellsResult(p: Presentation, scenario: Scenario, r: DemoStatus) {
    (p.kind == FailedKind <==> r.status == Failed) &&
    (p.kind == BlockedKind <==> r.status != Failed && Truthy(r.reasonCode)) &&
    (ClaimsSuccess(p) <==> r.status != Failed && !Truthy(r.reasonCode)) &&
    (p.kind == OverspendKind <==> ClaimsSuccess(p) && Truthy(r.receiptId) && scenario == OverspendScenario) &&
    (p.title == "Payment executed" <==> p.kind == SuccessKind && Truthy(r.receiptId)) &&
    (p.title == "Receipt · recourse open" <==> p.kind == OverspendKind) &&
    (p.action == Some(OpenReceipt) <==> ClaimsSuccess(p) && Truthy(r.receiptId)) &&
    (p.action == Some(Retry) <==> r.status == Failed) &&
    (p.reasonCode == if p.kind == BlockedKind then r.reasonCode else None)
  }

  lemma TitlesDiffer()
    ensures "Run failed" != "Payment executed" && "Run complete" != "Payment executed" && "Blocked at guard" != "Payment executed"
    ensures "Receipt · recourse open" != "Run failed" && "Receipt · recourse open" != "Blocked at guard"
    ensures "Receipt · recourse open" != "Payment executed" && "Receipt · recourse open" != "Run complete"
  {
    assert "Run failed"[1] == 'u' && "Run complete"[1] == 'u' && "Payment executed"[1] == 'a';
    assert "Blocked at guard"[1] == 'l' && "Receipt · recourse open"[1] == 'e';
  }

  lemma TerminalTellsResult(scenario: Scenario, r: DemoStatus)
    requires ResultIn(Some(r))
    ensures TellsResult(ResolveTerminal(scenario, Some(r)), scenario, r)
  {
    TitlesDiffer();
  }

  /** Before a result is in, the frame shows what the scenario expects and offers no action. */
  lemma TerminalExpects(scenario: Scenario, r: Option<DemoStatus>)
    requires !ResultIn(r)
    ensures var p := ResolveTerminal(scenario, r);
            (p.kind == BlockedKind <==> scenario == BlockedScenario) &&
            (p.kind == OverspendKind <==> scenario == OverspendScenario) &&
            (p.kind == SuccessKind <==> scenario == LegitScenario) && p.action == None
  {
  }

  // ----- the hook

  datatype Mode = Idle | Playing | Paused | Stepping | Settled

  /** A pending timeout and the phase it was armed in. */
  datatype Timer = Timer(phase: nat, delay: nat)

  /** State updates queued by the scheduling effect. */
  datatype Updates = Updates(advance: bool, mode: Option<Mode>)

  function Min(a: nat, b: nat): nat {
    if a < b then a else b
  }

  /** How long the phases from `i` on take when nothing has to be waited for. */
  function Remaining(phases: seq<Phase>, i: nat): nat
    decreases |phases| - i
  {
    if i + 1 >= |phases| then 0 else Delay(phases[i]) + Remaining(phases, i + 1)
  }

  /** With the result in from the start, a scenario plays for 3.35, 2.5 or 3.5 seconds. */
  lemma PlayingTimes()
    ensures Remaining(Phases(LegitScenario), 0) == 3350
    ensures Remaining(Phases(BlockedScenario), 0) == 2500
    ensures Remaining(Phases(OverspendScenario), 0) == 3500
  {
    assert Remaining(LEGIT, 3) == 1500 && Remaining(OVERSPEND, 3) == 1550;
  }

  /** Stepping moves on from the phase. */
  predicate StepLeaves(phase: Phase, mode: Mode, r: Option<DemoStatus>) {
    mode == Stepping && (phase.kind != Hold || CanLeaveHold(phase, r))
  }

  /** Where a changed state comes to rest. */
  function Rest(phases: seq<Phase>, index: nat, mode: Mode, r: Option<DemoStatus>): (nat, Mode)
    requires index < |phases|
  {
    if index == |phases| - 1 && (mode == Playing || mode == Stepping) then (index, Settled)
    else if StepLeaves(phases[index], mode, r) then (index + 1, Paused)
    else (index, mode)
  }

  class Visualizer {
    const scenario: Scenario
    const phases: seq<Phase>
    const autoPlay: bool
    var phaseIndex: nat
    var mode: Mode
    var realResult: Option<DemoStatus>
    var timer: Option<Timer>
    /** The scheduling effect's last run returned a cleanup. */
    var cleanup: bool

    ghost predicate Shape() {
      phases == Phases(scenario) && Playable(phases)
    }

    /** On a hold, waiting for the result. */
    predicate Holding()
      requires Shape() && phaseIndex < |phases|
      reads this
    {
      phases[phaseIndex].kind == Hold && !CanLeaveHold(phases[phaseIndex], realResult)
    }

    /** What holds between events. */
    ghost predicate Valid()
      reads this
    {
      Shape() && phaseIndex < |phases| &&
      (phaseIndex == |phases| - 1 ==> ResultIn(realResult)) &&
      (timer.Some? ==> mode == Playing && cleanup && phaseIndex < |phases| - 1 && !Holding() &&
                       timer.value == Timer(phaseIndex, Delay(phases[phaseIndex]))) &&
      (mode == Settled ==> phaseIndex == |phases| - 1) &&
      (mode == Playing ==> phaseIndex < |phases| - 1) &&
      (mode == Stepping ==> Holding())
    }

    /** Playback that is neither waiting nor stopped has its timer. */
    ghost predicate Live()
      requires Shape() && phaseIndex < |phases|
      reads this
    {
      mode == Playing ==> timer.Some? || Holding()
    }

    constructor (scenario: Scenario, autoPlay: bool, realResult: Option<DemoStatus>)
      ensures Valid() && Live() && this.scenario == scenario && this.autoPlay == autoPlay
      ensures phaseIndex == 0 && this.realResult == realResult && mode == if autoPlay then Playing else Idle
    {
      this.scenario, this.phases, this.autoPlay := scenario, Phases(scenario), autoPlay;
      this.realResult := realResult;
      phaseIndex, mode, timer, cleanup := 0, if autoPlay then Playing else Idle, None, false;
      new;
      PhasesArePlayable(scenario);
      var updates := Schedule();
    }

    method ClearTimer()
      modifies this`timer
      ensures timer == None
    {
      timer := None;
    }

    /** The scheduling effect, run with the current state. */
    method Schedule() returns (updates: Updates)
      requires Shape() && phaseIndex < |phases| && timer == None && !cleanup
      modifies this`timer, this`cleanup
      ensures (mode == Playing && phaseIndex < |phases| - 1 && !Holding()) <==> timer.Some?
      ensures timer.Some? ==> timer.value == Timer(phaseIndex, Delay(phases[phaseIndex]))
      ensures cleanup <==> timer.Some?
      ensures updates ==
              if mode != Playing && mode != Stepping then Updates(false, None)
              else if phaseIndex == |phases| - 1 then Updates(false, Some(Settled))
              else if mode == Stepping && !Holding() then Updates(true, Some(Paused))
              else Updates(false, None)
    {
      updates := Updates(false, None);
      if mode != Playing && mode != Stepping {
        return;
      }
      var current := phases[phaseIndex];
      if current.kind == Terminal {
        return Updates(false, Some(Settled));
      }
      if current.kind == Hold && !CanLeaveHold(current, realResult) {
        return;
      }
      if mode == Stepping {
        return Updates(true, Some(Paused));
      }
      timer := Some(Timer(phaseIndex, Delay(current)));
      cleanup := true;
    }

    /** React applies queued updates: it re-renders and re-runs the effect only if something changed. */
    method Commit(index: nat, newMode: Mode, result: Option<DemoStatus>)
      requires Shape() && phaseIndex < |phases| && index < |phases|
      requires index == |phases| - 1 ==> ResultIn(result)
      requires newMode == Settled ==> index == |phases| - 1
      requires timer.Some? ==> cleanup
      requires index == phaseIndex && newMode == mode && result == realResult ==> Valid()
      modifies this`phaseIndex, this`mode, this`realResult, this`timer, this`cleanup
      ensures Valid() && realResult == result
      ensures index == old(phaseIndex) && newMode == old(mode) && result == old(realResult) ==>
        phaseIndex == index && mode == newMode && timer == old(timer) && cleanup == old(cleanup)
      ensures !(index == old(phaseIndex) && newMode == old(mode) && result == old(realResult)) ==>
        Live() && (phaseIndex, mode) == Rest(phases, index, newMode, result)
    {
      if index != phaseIndex || newMode != mode || result != realResult {
        Rerender(index, newMode, result);
      }
    }

    /** A render with changed values: cleanup, effect, and what the effect queues. */
    method Rerender(index: nat, newMode: Mode, result: Option<DemoStatus>)
      requires Shape() && index < |phases|
      requires index == |phases| - 1 ==> ResultIn(result)
      requires newMode == Settled ==> index == |phases| - 1
      requires timer.Some? ==> cleanup
      modifies this`phaseIndex, this`mode, this`realResult, this`timer, this`cleanup
      ensures Valid() && realResult == result
      ensures Live() && (phaseIndex, mode) == Rest(phases, index, newMode, result)
      decreases if newMode == Stepping || newMode == Playing then 1 else 0
    {
      hide Phases, Delay;
      if cleanup {
        ClearTimer();
        cleanup := false;
      }
      phaseIndex, mode, realResult := index, newMode, result;
      var updates := Schedule();
      if updates.advance || updates.mode.Some? {
        Rerender(if updates.advance then Min(phaseIndex + 1, |phases| - 1) else phaseIndex,
                 if updates.mode.Some? then updates.mode.value else mode, realResult);
      }
    }

    method Play()
      requires Valid()
      modifies this
      ensures Valid() && realResult == old(realResult) && phaseIndex == old(phaseIndex)
      ensures old(Live()) ==> Live()
      ensures mode == if old(mode) == Settled || phaseIndex == |phases| - 1 then Settled else Playing
    {
      Commit(phaseIndex, if mode == Settled then mode else Playing, realResult);
    }

    method Pause()
      requires Valid()
      modifies this
      ensures Valid() && Live() && realResult == old(realResult) && phaseIndex == old(phaseIndex)
      ensures mode == if old(mode) == Settled then Settled else Paused
      ensures timer == None
    {
      ClearTimer();
      Commit(phaseIndex, if mode == Settled then mode else Paused, realResult);
    }

    /** Exactly one phase further, then paused; on a waiting hold, the step is taken when the result arrives. */
    method Step()
      requires Valid()
      modifies this
      ensures Valid() && Live() && realResult == old(realResult)
      ensures if old(Holding()) then phaseIndex == old(phaseIndex) && mode == Stepping
              else phaseIndex == Min(old(phaseIndex) + 1, |phases| - 1) &&
                   mode == if old(phaseIndex) == |phases| - 1 then Settled else Paused
    {
      ClearTimer();
      Commit(phaseIndex, Stepping, realResult);
    }

    /**
     Back to the first phase, playing. When it was playing the first phase already, nothing
     changes for React and the cleared timer is not armed again.
     */
    method Replay()
      requires Valid()
      modifies this
      ensures Valid() && realResult == old(realResult) && phaseIndex == 0 && mode == Playing
      ensures Live() <==> !(old(phaseIndex) == 0 && old(mode) == Playing)
    {
      ClearTimer();
      Commit(0, Playing, realResult);
    }

    /** The pending timeout fires. */
    method Fire()
      requires Valid() && timer.Some?
      modifies this
      ensures Valid() && Live() && realResult == old(realResult)
      ensures phaseIndex == old(phaseIndex) + 1
      ensures mode == if phaseIndex == |phases| - 1 then Settled else Playing
    {
      timer := None;
      Commit(Min(phaseIndex + 1, |phases| - 1), mode, realResult);
    }

    /** A new result prop; once one is in, it stays in. */
    method Arrive(result: Option<DemoStatus>)
      requires Valid() && (ResultIn(realResult) ==> ResultIn(result))
      modifies this
      ensures Valid() && realResult == result
      ensures old(Live()) ==> Live()
      ensures result != old(realResult) ==> Live()
      ensures old(mode) != Stepping ==> phaseIndex == old(phaseIndex) && mode == old(mode)
      ensures old(mode) == Stepping && ResultIn(result) ==> phaseIndex == |phases| - 1 && mode == Paused
    {
      Commit(phaseIndex, mode, result);
    }

    /**
     The parent bumps runKey for a run without a result yet. React first renders the old phase
     with the new props; a terminal phase is then shown without a result, and says "Awaiting".
     After that frame the reset effect clears the timer and queues the first phase; the
     scheduling effect runs in the same pass, with the old state, when the result has changed.
     */
    method NewRun() returns (frame: Option<Presentation>)
      requires Valid()
      modifies this
      ensures frame.Some? <==> old(phaseIndex) == |phases| - 1
      ensures frame.Some? ==> SaysAwaiting(frame.value) && frame.value == ResolveTerminal(scenario, None)
      ensures Valid() && realResult == None && phaseIndex == 0
      ensures mode == if autoPlay then Playing else Idle
      ensures Live() <==> !(autoPlay && old(phaseIndex) == 0 && old(mode) == Playing && old(realResult) == None)
    {
      var resultChanged := realResult != None;
      if resultChanged && cleanup {
        ClearTimer();
        cleanup := false;
      }
      realResult := None;
      AwaitingIff(scenario, None);
      frame := if phases[phaseIndex].kind == Terminal then Some(ResolveTerminal(scenario, realResult)) else None;
      ClearTimer();
      if resultChanged {
        var updates := Schedule();
        assert updates == Updates(false, None);
      }
      Commit(0, if autoPlay then Playing else Idle, None);
    }

    /** The frame shown between events: what the terminal phase says is never "Awaiting". */
    method TerminalFrame() returns (frame: Option<Presentation>)
      requires Valid()
      ensures frame.Some? <==> phases[phaseIndex].kind == Terminal
      ensures frame.Some? ==> !SaysAwaiting(frame.value) && frame.value == ResolveTerminal(scenario, realResult)
      ensures frame.Some? ==> realResult.Some? && TellsResult(frame.value, scenario, realResult.value)
    {
      hide TellsResult, ResolveTerminal, SaysAwaiting;
      AwaitingIff(scenario, realResult);
      if ResultIn(realResult) {
        TerminalTellsResult(scenario, realResult.value);
      }
      if phases[phaseIndex].kind == Terminal {
        return Some(ResolveTerminal(scenario, realResult));
      }
      return None;
    }

    /** Left alone with the result in, live playback settles after exactly the remaining phases. */
    method RunToEnd() returns (fires: nat, elapsed: nat)
      requires Valid() && Live() && mode == Playing && ResultIn(realResult)
      modifies this
      ensures Valid() && mode == Settled && phaseIndex == |phases| - 1
      ensures fires == |phases| - 1 - old(phaseIndex)
      ensures elapsed == Remaining(phases, old(phaseIndex))
    {
      hide Phases, Delay;
      fires, elapsed := 0, 0;
      while mode == Playing
        invariant Valid() && Live() && realResult == old(realResult)
        invariant mode == Playing || (mode == Settled && phaseIndex == |phases| - 1)
        invariant fires == phaseIndex - old(phaseIndex)
        invariant elapsed + Remaining(phases, phaseIndex) == Remaining(phases, old(phaseIndex))
        decreases |phases| - phaseIndex
      {
        elapsed := elapsed + timer.value.delay;
        fires := fires + 1;
        Fire();
      }
    }
  }
}
