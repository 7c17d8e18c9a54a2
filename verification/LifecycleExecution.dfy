/** Which journaled calls have been executed. The undo endpoint reads that off the status of
    the row, which is set before the call runs. */
module LifecycleExecution {
  import opened Records
  import opened Tables
  import opened Holds
  import opened Compensation
  import opened Lifecycle
  import opened LifecycleInvariant
  import opened LifecycleTheorems

  // ---- What journals, and what forwards ---------------------------------------

  lemma {:induction false} OnlyCaptureAmongCalls(c: Config, s: System, step: CallStep, t: System)
    requires GateOk(c, s) && TakeCall(c, s, step) == Some(t)
    ensures step.CaptureImage? || t.journal == s.journal
  {
    if !step.BeginCall? && !step.CaptureImage? {
      StepHasContext(c, s, step);
      if Early(step) { EarlyStepMoves(c, s, step, t); } else { LateStepMoves(c, s, step, t); }
    }
  }

  lemma {:induction false} UndoKeepsKeys(s: System, step: UndoStep, t: System)
    requires TakeUndo(s, step) == Some(t)
    ensures t.journal.Keys == s.journal.Keys
  {
    if !step.UndoMark? && !step.UndoRecord? { UndoStepTables(s, step, t); }
  }

  /** Only a capture adds a journal entry, and it adds its own. */
  lemma {:induction false} OnlyCaptureJournals(c: Config, s: System, step: Step, t: System, id: string)
    requires Inv(c, s) && Take(c, s, step) == Some(t) && id !in s.journal && id in t.journal
    ensures step.OfCall? && step.call.CaptureImage? && step.call.id == id
    ensures t.journal[id].kind == step.call.kind && t.journal[id].payload == step.call.payload
  {
    match step
    case OfCall(m) => OnlyCaptureAmongCalls(c, s, m, t);
    case OfDecision(m) => DecisionStepMoves(c, s, m, t);
    case OfUndo(m) => UndoKeepsKeys(s, m, t);
    case OfSystem(m) => SystemStepMoves(c, s, m, t);
  }

  /** The event is new in the log. */
  ghost predicate NewlyLogged(s: System, t: System, e: LogEvent) {
    e !in s.log && e in t.log
  }

  lemma {:induction false} QuietForwardsNothing(s: System, t: System, id: string)
    requires t.log == s.log || (|t.log| == |s.log| + 1 && t.log[..|s.log|] == s.log && !t.log[|s.log|].Forwarded?)
    ensures !NewlyLogged(s, t, Forwarded(id))
  {
    if t.log != s.log { assert t.log == s.log + [t.log[|s.log|]]; }
  }

  lemma {:induction false} EarlyForwardsNothing(c: Config, s: System, step: CallStep, t: System)
    requires TakeCall(c, s, step) == Some(t) && (Early(step) || step.CancelCall? || step.CaptureImage?)
    ensures t.log == s.log || (|t.log| == |s.log| + 1 && t.log[..|s.log|] == s.log && !t.log[|s.log|].Forwarded?)
  {
  }

  lemma {:induction false} LateForwardsNothing(c: Config, s: System, step: CallStep, t: System)
    requires TakeCall(c, s, step) == Some(t) && !Early(step) && !step.Forward?
    ensures t.log == s.log || (|t.log| == |s.log| + 1 && t.log[..|s.log|] == s.log && !t.log[|s.log|].Forwarded?)
  {
  }

  lemma {:induction false} OnlyForwardForwards(c: Config, s: System, step: CallStep, t: System, id: string)
    requires GateOk(c, s) && TakeCall(c, s, step) == Some(t) && NewlyLogged(s, t, Forwarded(id))
    ensures step == Forward(id)
  {
    if Early(step) || step.CancelCall? || step.CaptureImage? {
      EarlyForwardsNothing(c, s, step, t);
    } else if !step.Forward? {
      LateForwardsNothing(c, s, step, t);
    }
    if !step.Forward? { QuietForwardsNothing(s, t, id); }
  }

  lemma {:induction false} UndoForwardsNothing(s: System, step: UndoStep, t: System)
    requires TakeUndo(s, step) == Some(t)
    ensures t.log == s.log || (|t.log| == |s.log| + 1 && t.log[..|s.log|] == s.log && !t.log[|s.log|].Forwarded?)
  {
  }

  lemma {:induction false} DecisionReadsLog(c: Config, s: System, step: DecisionStep, t: System)
    requires GateOk(c, s) && TakeDecision(s, step) == Some(t)
    ensures GrowsQuietly(s, t)
  {
    DecisionStepMoves(c, s, step, t);
  }

  lemma {:induction false} ForwardedByItsStep(c: Config, s: System, step: Step, t: System, id: string)
    requires GateOk(c, s) && Take(c, s, step) == Some(t) && NewlyLogged(s, t, Forwarded(id))
    ensures step == OfCall(Forward(id))
  {
    match step
    case OfCall(m) => OnlyForwardForwards(c, s, m, t, id);
    case OfDecision(m) =>
      DecisionReadsLog(c, s, m, t);
      QuietForwardsNothing(s, t, id);
    case OfUndo(m) =>
      UndoForwardsNothing(s, m, t);
      QuietForwardsNothing(s, t, id);
    case OfSystem(m) =>
      SystemStepMoves(c, s, m, t);
      QuietForwardsNothing(s, t, id);
  }

  // ---- Armed calls ------------------------------------------------------------

  /** The call is past its capture and about to be forwarded. */
  ghost predicate ArmedNow(s: System, id: string) {
    id in s.calls && s.calls[id].phase == Armed
  }

  /** The step cancels the call between its capture and its forward, or crashes the process there. */
  ghost predicate CutsOff(s: System, t: System, id: string) {
    ArmedNow(s, id) && id in s.journal && (DoCancelCall(s, id) == Some(t) || DoCrash(s) == Some(t))
  }

  ghost predicate CutOffAt(run: seq<System>, k: nat, id: string) {
    k + 1 < |run| && CutsOff(run[k], run[k + 1], id)
  }

  ghost predicate SameCall(s: System, t: System, id: string) {
    (id in t.calls <==> id in s.calls) && (id in s.calls ==> t.calls[id] == s.calls[id])
  }

  lemma {:induction false} OthersStay(c: Config, s: System, step: CallStep, t: System, id: string)
    requires GateOk(c, s) && TakeCall(c, s, step) == Some(t) && step.id != id
    ensures SameCall(s, t, id)
  {
    if !step.BeginCall? && !step.CaptureImage? {
      StepHasContext(c, s, step);
      if Early(step) { EarlyStepMoves(c, s, step, t); } else { LateStepMoves(c, s, step, t); }
    }
  }

  lemma {:induction false} OnlyEndsArmed(c: Config, s: System, step: CallStep, t: System)
    requires GateOk(c, s) && TakeCall(c, s, step) == Some(t) && ArmedNow(s, step.id)
    ensures step.Forward? || step.CancelCall?
  {
    if Early(step) {
    } else if step.InsertRow? || step.Expire? || step.LeaveWait? || step.ReadBack? {
    } else {
    }
  }

  lemma {:induction false} CallLeavesArmed(c: Config, s: System, step: CallStep, t: System, id: string)
    requires GateOk(c, s) && TakeCall(c, s, step) == Some(t) && ArmedNow(s, id)
    ensures ArmedNow(t, id) || Forwarded(id) in t.log || DoCancelCall(s, id) == Some(t)
  {
    if step.id == id {
      OnlyEndsArmed(c, s, step, t);
      if step.Forward? { assert t.log[|s.log|] == Forwarded(id); }
    } else {
      OthersStay(c, s, step, t, id);
    }
  }

  lemma {:induction false} UndosLeaveCalls(s: System, step: UndoStep, t: System)
    requires TakeUndo(s, step) == Some(t)
    ensures t.calls == s.calls && s.issued <= t.issued
  {
    if !step.UndoRecord? { UndoStepFrame(s, step, t); }
  }

  lemma {:induction false} SystemLeavesArmed(c: Config, s: System, step: SystemStep, t: System, id: string)
    requires GateOk(c, s) && TakeSystem(s, step) == Some(t) && ArmedNow(s, id)
    ensures ArmedNow(t, id) || DoCrash(s) == Some(t)
  {
  }

  /** An armed call stays armed, is forwarded, or is cut off. */
  lemma {:induction false} LeavesArmed(c: Config, s: System, step: Step, t: System, id: string)
    requires GateOk(c, s) && Take(c, s, step) == Some(t) && ArmedNow(s, id) && id in s.journal
    ensures ArmedNow(t, id) || Forwarded(id) in t.log || CutsOff(s, t, id)
  {
    match step
    case OfCall(m) => CallLeavesArmed(c, s, m, t, id);
    case OfDecision(m) => DecisionStepMoves(c, s, m, t);
    case OfUndo(m) => UndosLeaveCalls(s, m, t);
    case OfSystem(m) => SystemLeavesArmed(c, s, m, t, id);
  }

  // ---- Calls that are over ----------------------------------------------------

  /** The call is over and has not been executed. */
  ghost predicate EndedUnrun(s: System, id: string) {
    Forwarded(id) !in s.log && id in s.issued && (id in s.calls ==> s.calls[id].phase == Finished)
  }

  lemma {:induction false} CallStaysOver(c: Config, s: System, step: CallStep, t: System, id: string)
    requires GateOk(c, s) && TakeCall(c, s, step) == Some(t)
    requires id in s.issued && (id in s.calls ==> s.calls[id].phase == Finished)
    ensures id in t.issued && (id in t.calls ==> t.calls[id].phase == Finished)
  {
    if !step.BeginCall? && !step.CaptureImage? {
      StepHasContext(c, s, step);
      if Early(step) { EarlyStepMoves(c, s, step, t); } else { LateStepMoves(c, s, step, t); }
    }
  }

  lemma {:induction false} StepStaysOver(c: Config, s: System, step: Step, t: System, id: string)
    requires GateOk(c, s) && Take(c, s, step) == Some(t)
    requires id in s.issued && (id in s.calls ==> s.calls[id].phase == Finished)
    ensures id in t.issued && (id in t.calls ==> t.calls[id].phase == Finished)
  {
    match step
    case OfCall(m) => CallStaysOver(c, s, m, t, id);
    case OfDecision(m) => DecisionStepMoves(c, s, m, t);
    case OfUndo(m) => UndosLeaveCalls(s, m, t);
    case OfSystem(m) => SystemStepMoves(c, s, m, t);
  }

  lemma {:induction false} StepStaysUnrun(c: Config, s: System, step: Step, t: System, id: string)
    requires GateOk(c, s) && Take(c, s, step) == Some(t) && EndedUnrun(s, id)
    ensures EndedUnrun(t, id)
  {
    StepStaysOver(c, s, step, t, id);
    if Forwarded(id) in t.log {
      ForwardedByItsStep(c, s, step, t, id);
    }
  }

  lemma {:induction false} CutEndsUnrun(s: System, t: System, id: string)
    requires IdsOk(s) && ForwardsOk(s.log, s.calls) && CutsOff(s, t, id)
    ensures EndedUnrun(t, id)
  {
    assert Forwarded(id) !in s.log;
    if DoCrash(s) == Some(t) {
      assert t.calls == map[] && t.log == s.log && t.issued == s.issued;
    } else {
      assert t.log == s.log && t.issued == s.issued && t.calls[id].phase == Finished;
    }
  }

  lemma {:induction false} NextStaysUnrun(c: Config, s: System, t: System, id: string)
    requires Inv(c, s) && Next(c, s, t) && EndedUnrun(s, id)
    ensures EndedUnrun(t, id)
  {
    var step :| Take(c, s, step) == Some(t);
    StepStaysUnrun(c, s, step, t, id);
  }

  lemma {:induction false} RunStepStaysUnrun(c: Config, run: seq<System>, k: nat, id: string)
    requires IsRun(c, run) && k + 1 < |run| && EndedUnrun(run[k], id)
    ensures EndedUnrun(run[k + 1], id)
  {
    RunKeeps(c, run, k);
    RunSteps(c, run, k);
    NextStaysUnrun(c, run[k], run[k + 1], id);
  }

  lemma {:induction false} CutOffEndsUnrun(c: Config, run: seq<System>, k: nat, id: string)
    requires IsRun(c, run) && CutOffAt(run, k, id)
    ensures EndedUnrun(run[k + 1], id)
  {
    RunKeeps(c, run, k);
    CutEndsUnrun(run[k], run[k + 1], id);
  }

  /** A call that was cut off is never executed. */
  lemma {:induction false} CutOffIsNeverRun(c: Config, run: seq<System>, k: nat, i: nat, id: string)
    requires IsRun(c, run) && k < i < |run| && CutOffAt(run, k, id)
    ensures EndedUnrun(run[i], id)
    decreases i
  {
    if k == i - 1 {
      CutOffEndsUnrun(c, run, k, id);
    } else {
      CutOffIsNeverRun(c, run, k, i - 1, id);
      RunStepStaysUnrun(c, run, i - 1, id);
    }
  }

  // ---- Journaled calls --------------------------------------------------------

  lemma {:induction false} StepOfJournaled(c: Config, s: System, step: Step, t: System, id: string)
    requires Inv(c, s) && Take(c, s, step) == Some(t) && id in t.journal
    requires id in s.journal ==> ArmedNow(s, id)
    ensures ArmedNow(t, id) || Forwarded(id) in t.log || CutsOff(s, t, id)
  {
    if id in s.journal {
      LeavesArmed(c, s, step, t, id);
    } else {
      OnlyCaptureJournals(c, s, step, t, id);
    }
  }

  lemma {:induction false} NextOfJournaled(c: Config, s: System, t: System, id: string)
    requires Inv(c, s) && Next(c, s, t) && id in t.journal
    requires id in s.journal ==> ArmedNow(s, id)
    ensures ArmedNow(t, id) || Forwarded(id) in t.log || CutsOff(s, t, id)
  {
    var step :| Take(c, s, step) == Some(t);
    StepOfJournaled(c, s, step, t, id);
  }

  lemma {:induction false} RunStepOfJournaled(c: Config, run: seq<System>, k: nat, id: string)
    requires IsRun(c, run) && k + 1 < |run| && id in run[k + 1].journal
    requires id in run[k].journal ==> ArmedNow(run[k], id)
    ensures ArmedNow(run[k + 1], id) || Forwarded(id) in run[k + 1].log || CutOffAt(run, k, id)
  {
    RunKeeps(c, run, k);
    RunSteps(c, run, k);
    NextOfJournaled(c, run[k], run[k + 1], id);
  }

  /** Captured, a call is executed, still armed, or was cut off. */
  lemma {:induction false} JournaledCall(c: Config, run: seq<System>, i: nat, id: string)
    requires IsRun(c, run) && i < |run| && id in run[i].journal
    ensures Forwarded(id) in run[i].log || ArmedNow(run[i], id) || exists k :: 0 <= k < i && CutOffAt(run, k, id)
  {
    if i > 0 {
      RunHistory(c, run, i - 1, i);
      if id in run[i - 1].journal {
        JournaledCall(c, run, i - 1, id);
      }
      if (id in run[i - 1].journal ==> ArmedNow(run[i - 1], id)) {
        RunStepOfJournaled(c, run, i - 1, id);
      }
    }
  }

  lemma {:induction false} ArmedIsUnrun(c: Config, s: System, id: string)
    requires Inv(c, s) && ArmedNow(s, id)
    ensures Forwarded(id) !in s.log
  {
  }

  /** In every run, a journaled action has not been executed exactly when its call is at this
      moment between capture and forward, or was cut off there by a cancellation or a crash. The
      undo endpoint accepts it all the same, until it is undone. */
  lemma {:induction false} UndoCanOvertakeTheCall(c: Config, run: seq<System>, i: nat, id: string)
    requires IsRun(c, run) && i < |run| && id in run[i].journal
    ensures Forwarded(id) !in run[i].log
       <==> ArmedNow(run[i], id) || exists k :: 0 <= k < i && CutOffAt(run, k, id)
    ensures Undoable(run[i].actions, run[i].journal, id) <==> Undoes(run[i].journal, id)
  {
    RunKeeps(c, run, i);
    JournaledCall(c, run, i, id);
    if ArmedNow(run[i], id) {
      ArmedIsUnrun(c, run[i], id);
    }
    forall k | 0 <= k < i && CutOffAt(run, k, id) ensures Forwarded(id) !in run[i].log {
      CutOffIsNeverRun(c, run, k, i, id);
    }
    assert EntryOk(run[i].actions, run[i].log, run[i].issued, id, run[i].journal[id]);
  }

  // ---- Both do happen ---------------------------------------------------------

  /** A new file is about to be written by a call that was let through: its absence is journaled. */
  function ArmedState(r: Request, id: string, path: string): System {
    var row := NewAction(r, id, false, 0.0);
    INIT.(mode := Serving, actions := map[id := row], issued := {id}, calls := map[id := Call(Armed, row, r.risk)],
          journal := map[id := JournalEntry(id, KIND_FS, FilePayload(path, None), 0.0, None, None)])
  }

  lemma {:induction false} Goes(c: Config, run: seq<System>, step: Step, next: System)
    requires IsRun(c, run) && Take(c, run[|run| - 1], step) == Some(next)
    ensures IsRun(c, run + [next])
  {
    RunOn(c, run, step);
  }

  /** The state with the one call of an auto-allowed request at a phase, its row inserted or not. */
  function OneCallState(r: Request, id: string, phase: Phase, inserted: bool): System {
    var row := NewAction(r, id, false, 0.0);
    INIT.(mode := Serving, actions := if inserted then map[id := row] else map[], issued := {id},
          calls := map[id := Call(phase, row, r.risk)])
  }

  lemma {:induction false} GoesTo(r: Request, id: string, from: Phase, to: Phase)
    ensures Goto(OneCallState(r, id, from, true), id, to) == OneCallState(r, id, to, true)
  {
    var row := NewAction(r, id, false, 0.0);
    assert map[id := Call(from, row, r.risk)][id := Call(to, row, r.risk)] == map[id := Call(to, row, r.risk)];
  }

  lemma {:induction false} FirstCallBegins(c: Config, r: Request, id: string)
    requires r.risk.riskLevel !in c.heldRiskLevels && r.risk.ruleId != UNDO_RULE
    ensures Take(c, INIT.(mode := Serving), OfCall(BeginCall(id, r, 0.0)))
         == Some(OneCallState(r, id, Inserting, false))
  {
    var call := Call(Inserting, NewAction(r, id, false, 0.0), r.risk);
    assert INIT.calls[id := call] == map[id := call] && INIT.issued + {id} == {id};
  }

  lemma {:induction false} FirstRowGoesIn(c: Config, r: Request, id: string)
    ensures Take(c, OneCallState(r, id, Inserting, false), OfCall(InsertRow(id)))
         == Some(OneCallState(r, id, Inserted, true))
  {
    var s, row := OneCallState(r, id, Inserting, false), NewAction(r, id, false, 0.0);
    assert s.actions[id := row] == map[id := row];
    assert s.calls[id := Call(Inserted, row, r.risk)] == map[id := Call(Inserted, row, r.risk)];
  }

  lemma {:induction false} SubmittedAllowed(c: Config, r: Request, id: string) returns (run: seq<System>)
    requires r.risk.riskLevel !in c.heldRiskLevels && r.risk.ruleId != UNDO_RULE
    ensures IsRun(c, run) && run[|run| - 1] == OneCallState(r, id, Inserted, true)
  {
    run := FirstServing(c);
    FirstCallBegins(c, r, id);
    Goes(c, run, OfCall(BeginCall(id, r, 0.0)), OneCallState(r, id, Inserting, false));
    run := run + [OneCallState(r, id, Inserting, false)];
    FirstRowGoesIn(c, r, id);
    Goes(c, run, OfCall(InsertRow(id)), OneCallState(r, id, Inserted, true));
    run := run + [OneCallState(r, id, Inserted, true)];
  }

  lemma {:induction false} FirstImageGoesIn(c: Config, r: Request, id: string, path: string)
    requires r.risk.reversibility == COMPENSABLE
    ensures Take(c, OneCallState(r, id, Cleared, true), OfCall(CaptureImage(id, KIND_FS, FilePayload(path, None), 0.0)))
         == Some(ArmedState(r, id, path))
  {
    GoesTo(r, id, Cleared, Armed);
    var entry := JournalEntry(id, KIND_FS, FilePayload(path, None), 0.0, None, None);
    assert INIT.journal[id := entry] == map[id := entry];
  }

  lemma {:induction false} ArmedHappens(c: Config, r: Request, id: string, path: string) returns (run: seq<System>)
    requires r.risk.riskLevel !in c.heldRiskLevels && r.risk.ruleId != UNDO_RULE
    requires r.risk.reversibility == COMPENSABLE
    ensures IsRun(c, run) && run[|run| - 1] == ArmedState(r, id, path)
  {
    run := SubmittedAllowed(c, r, id);
    GoesTo(r, id, Inserted, Submitted);
    Goes(c, run, OfCall(RegisterEvent(id)), OneCallState(r, id, Submitted, true));
    run := run + [OneCallState(r, id, Submitted, true)];
    GoesTo(r, id, Submitted, Cleared);
    Goes(c, run, OfCall(EnterWait(id)), OneCallState(r, id, Cleared, true));
    run := run + [OneCallState(r, id, Cleared, true)];
    FirstImageGoesIn(c, r, id, path);
    Goes(c, run, OfCall(CaptureImage(id, KIND_FS, FilePayload(path, None), 0.0)), ArmedState(r, id, path));
    run := run + [ArmedState(r, id, path)];
  }

  /** The same with one undo request of the action at a phase. */
  function UndoingState(r: Request, id: string, path: string, who: string, phase: UndoPhase): System {
    ArmedState(r, id, path).(undos := map[0 := Undo(id, who, phase)])
  }

  lemma {:induction false} UndoBegins(c: Config, r: Request, id: string, path: string, who: string)
    ensures Take(c, ArmedState(r, id, path), OfUndo(BeginUndo(0, id, who)))
         == Some(UndoingState(r, id, path, who, Fetching))
  {
    assert INIT.undos[0 := Undo(id, who, Fetching)] == map[0 := Undo(id, who, Fetching)];
  }

  lemma {:induction false} UndoReads(c: Config, r: Request, id: string, path: string, who: string)
    ensures Take(c, UndoingState(r, id, path, who, Fetching), OfUndo(UndoRead(0)))
         == Some(UndoingState(r, id, path, who, FetchingJournal(NewAction(r, id, false, 0.0))))
  {
    var to := Undo(id, who, FetchingJournal(NewAction(r, id, false, 0.0)));
    assert map[0 := Undo(id, who, Fetching)][0 := to] == map[0 := to];
  }

  lemma {:induction false} UndoFetches(c: Config, r: Request, id: string, path: string, who: string, undoId: string)
    requires undoId != id
    ensures var row := NewAction(r, id, false, 0.0); var entry := ArmedState(r, id, path).journal[id];
      Take(c, UndoingState(r, id, path, who, FetchingJournal(row)), OfUndo(UndoFetch(0, undoId)))
      == Some(UndoingState(r, id, path, who, Marking(row, entry, undoId)).(issued := {id, undoId}))
  {
    var row, entry := NewAction(r, id, false, 0.0), ArmedState(r, id, path).journal[id];
    var to := Undo(id, who, Marking(row, entry, undoId));
    assert map[0 := Undo(id, who, FetchingJournal(row))][0 := to] == map[0 := to];
    assert {id} + {undoId} == {id, undoId};
  }

  /** The undo request has won the entry. */
  function UndoneState(r: Request, id: string, path: string, who: string, undoId: string, phase: UndoPhase,
      log: seq<LogEvent>): System {
    UndoingState(r, id, path, who, phase).(issued := {id, undoId}, log := log,
      journal := map[id := JournalEntry(id, KIND_FS, FilePayload(path, None), 0.0, Some(0.0), Some(undoId))])
  }

  lemma {:induction false} UndoWins(c: Config, r: Request, id: string, path: string, who: string, undoId: string)
    ensures var row := NewAction(r, id, false, 0.0); var entry := ArmedState(r, id, path).journal[id];
      Take(c, UndoingState(r, id, path, who, Marking(row, entry, undoId)).(issued := {id, undoId}),
        OfUndo(UndoMark(0, 0.0)))
      == Some(UndoneState(r, id, path, who, undoId, Compensating(row, undoId, 1, [FsDelete(path)]), []))
  {
    var row, entry := NewAction(r, id, false, 0.0), ArmedState(r, id, path).journal[id];
    var marked := entry.(undoneAt := Some(0.0), undoActionId := Some(undoId));
    var to := Undo(id, who, Compensating(row, undoId, 1, [FsDelete(path)]));
    assert map[id := entry][id := marked] == map[id := marked];
    assert map[0 := Undo(id, who, Marking(row, entry, undoId))][0 := to] == map[0 := to];
    assert BuildCompensation(KIND_FS, FilePayload(path, None)) == Ok([FsDelete(path)]);
  }

  lemma {:induction false} UndoCalls(c: Config, r: Request, id: string, path: string, who: string, undoId: string)
    ensures var row := NewAction(r, id, false, 0.0);
      Take(c, UndoneState(r, id, path, who, undoId, Compensating(row, undoId, 1, [FsDelete(path)]), []),
        OfUndo(UndoCall(0, true)))
      == Some(UndoneState(r, id, path, who, undoId, Compensating(row, undoId, 1, []),
           [Compensated(id, undoId, FsDelete(path))]))
  {
    var row := NewAction(r, id, false, 0.0);
    var from := Undo(id, who, Compensating(row, undoId, 1, [FsDelete(path)]));
    var to := Undo(id, who, Compensating(row, undoId, 1, []));
    assert [FsDelete(path)][1..] == [];
    assert INIT.log + [Compensated(id, undoId, FsDelete(path))] == [Compensated(id, undoId, FsDelete(path))];
    assert map[0 := from][0 := to] == map[0 := to];
  }

  lemma {:induction false} UndoEnds(c: Config, s: System, id: string, undoId: string, row: Action, t: System)
    requires UndoLive(s, 0) && s.undos[0].phase == Compensating(row, undoId, 1, []) && undoId !in s.actions
    requires DoUndoRecord(s, 0, 0.0) == Some(t)
    ensures undoId in t.actions && t.actions[undoId].ruleId == UNDO_RULE
    ensures t.journal == s.journal && t.calls == s.calls && t.mode == s.mode && t.log == s.log
  {
  }

  lemma {:induction false} WonHappens(c: Config, r: Request, id: string, path: string, who: string, undoId: string)
      returns (run: seq<System>)
    requires r.risk.riskLevel !in c.heldRiskLevels && r.risk.ruleId != UNDO_RULE
    requires r.risk.reversibility == COMPENSABLE && undoId != id
    ensures IsRun(c, run)
    ensures run[|run| - 1] == UndoneState(r, id, path, who, undoId,
      Compensating(NewAction(r, id, false, 0.0), undoId, 1, [FsDelete(path)]), [])
  {
    var row, entry := NewAction(r, id, false, 0.0), ArmedState(r, id, path).journal[id];
    run := ArmedHappens(c, r, id, path);
    UndoBegins(c, r, id, path, who);
    Goes(c, run, OfUndo(BeginUndo(0, id, who)), UndoingState(r, id, path, who, Fetching));
    run := run + [UndoingState(r, id, path, who, Fetching)];
    UndoReads(c, r, id, path, who);
    Goes(c, run, OfUndo(UndoRead(0)), UndoingState(r, id, path, who, FetchingJournal(row)));
    run := run + [UndoingState(r, id, path, who, FetchingJournal(row))];
    UndoFetches(c, r, id, path, who, undoId);
    var marking := UndoingState(r, id, path, who, Marking(row, entry, undoId)).(issued := {id, undoId});
    Goes(c, run, OfUndo(UndoFetch(0, undoId)), marking);
    run := run + [marking];
    UndoWins(c, r, id, path, who, undoId);
    var won := UndoneState(r, id, path, who, undoId, Compensating(row, undoId, 1, [FsDelete(path)]), []);
    Goes(c, run, OfUndo(UndoMark(0, 0.0)), won);
    run := run + [won];
  }

  /** The undo of the call is over, its row written, and the call is about to be forwarded. */
  ghost predicate Overtaken(s: System, id: string, undoId: string) {
    && ArmedNow(s, id) && DoForward(s, id).Some? && UndoneBy(s.journal, id, undoId)
    && CallsFor(s.log, id) == PlanOf(s.journal[id].kind, s.journal[id].payload)
    && undoId in s.actions && s.actions[undoId].ruleId == UNDO_RULE
  }

  /** A whole undo does overtake its call: there is such a run for every compensable request of a
      level that is let through, here for the write of a new file. */
  lemma {:induction false} OvertakenHappens(c: Config, r: Request, id: string, path: string, who: string,
      undoId: string) returns (run: seq<System>)
    requires r.risk.riskLevel !in c.heldRiskLevels && r.risk.ruleId != UNDO_RULE
    requires r.risk.reversibility == COMPENSABLE && undoId != id
    ensures IsRun(c, run) && Overtaken(run[|run| - 1], id, undoId)
  {
    run := WonHappens(c, r, id, path, who, undoId);
    UndoCalls(c, r, id, path, who, undoId);
    var row, call := NewAction(r, id, false, 0.0), Compensated(id, undoId, FsDelete(path));
    var made := UndoneState(r, id, path, who, undoId, Compensating(row, undoId, 1, []), [call]);
    Goes(c, run, OfUndo(UndoCall(0, true)), made);
    run := run + [made];
    var recorded := DoUndoRecord(made, 0, 0.0).value;
    UndoEnds(c, made, id, undoId, row, recorded);
    Goes(c, run, OfUndo(UndoRecord(0, 0.0)), recorded);
    run := run + [recorded];
    CallsForSelf([], call, id);
    assert [] + [call] == [call];
  }

  /** Wherever a journaled call is armed, a crash may cut it off. */
  lemma {:induction false} CutOffHappens(c: Config, run: seq<System>, id: string)
    requires IsRun(c, run) && ArmedNow(run[|run| - 1], id) && id in run[|run| - 1].journal
    ensures var longer := run + [DoCrash(run[|run| - 1]).value];
      IsRun(c, longer) && CutOffAt(longer, |run| - 1, id)
  {
    RunOn(c, run, OfSystem(Crash));
  }
}
